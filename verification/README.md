# Thematic expert chatbot: conversation state in Dafny

This project models the core of a small command-line chatbot that talks to a
local language model through Ollama. The user picks one of three experts
(programming, marketing, legal). Each expert has a fixed system prompt and
its own conversation history. The active expert's whole history is sent to
the model with every user message.

The model has five modules:

- `ExpertPrompts` (`expert_prompts.dfy`): the closed `ExpertType`
  enumeration, its string values, and the total lookup from an expert to its
  system prompt.
- `Conversation` (`conversation.dfy`): the `ConversationManager` class. It
  holds one history per expert (a map that always has every expert as a key)
  and the current expert, and it updates them in place. Each method
  is proved against a function on a `Session` value (`Seeded`, `Switched`,
  `Appended`, `History`). Those functions state the integrity invariant and
  the isolation between experts.
- `ConversationProperties` (`conversation_properties.dfy`): lemmas about any
  sequence of manager calls. They cover the integrity invariant, append
  order, isolation and reset idempotence.
- `Chatbot` (`chatbot.dfy`): the `ThematicChatbot` class with an abstract
  backend. `SendMessage` is proved against `Exchange`. The module also holds
  the model-availability check, written both as in the source and as
  corrected.
- `Wrappers` (`wrappers.dfy`): `Option`, `Result` and `Outcome`.

The backend is a parameter. The model listing is a `ListOutcome` value: an
unreachable backend, or a response whose `models` list and whose entries'
`model`/`name` keys may be missing. The chat call is a function
`(model name, context) -> ChatOutcome`: the call fails, or it returns a
response whose `message` and `content` keys may be missing.
`SendMessage`'s contract says that this function is applied to exactly the
active history with the new user turn appended.

## Model

| member | source | states |
|---|---|---|
| `ExpertPrompts.FromValue` | experts/expert_prompts.py:3-6 | Looking up a string finds a member exactly when the string is that member's value; any other string names no expert. |
| `ExpertPrompts.ValueRoundTrip` | experts/expert_prompts.py:3-6 | Every expert is recovered from its value ("programming", "marketing", "legal"), so no two members share a value. |
| `ExpertPrompts.AllExpertsEnumerates` | experts/expert_prompts.py:3-6 | The enumeration has exactly three members. Iteration lists each of them once and lists every member. |
| `ExpertPrompts.SystemPromptForExpert` | experts/expert_prompts.py:8-46 | The lookup is defined for every expert (no precondition, no error case), is a pure function, and never yields an empty prompt. |
| `ExpertPrompts.PromptsPairwiseDistinct` | experts/expert_prompts.py:9-40 | Two different experts never have the same prompt. |
| `Conversation.Seeded` | core/conversation.py:11-24 | After construction the current expert is the initial one, and every expert's history is exactly its own system message. The integrity invariant holds. |
| `Conversation.SeedHistories` | core/conversation.py:13-24 | The seeding loop starts from an empty list per expert, appends each expert's system message in enumeration order, and ends with each history being exactly that one message. |
| `Conversation.Switched` | core/conversation.py:26-39 | Switching always makes the given expert current. Without reset, no history changes. With reset, the target's history becomes exactly its system message and every other history is unchanged. The integrity invariant is preserved. |
| `Conversation.Appended` | core/conversation.py:50-66 | Appending a user or assistant turn adds exactly that message at the tail of the target's history (the given expert, else the current one). Earlier messages keep their order. Other experts and the current expert are unchanged, and the integrity invariant is preserved. |
| `Conversation.History` | core/conversation.py:44-48 | Reading a history (the given expert's, else the current one's) in a consistent state gives a well-formed history of that expert. |
| `Conversation.ConversationManager.constructor` | core/conversation.py:11-24 | The new manager's state is `Seeded(initial_expert)` and its invariant holds. |
| `Conversation.ConversationManager.SetExpert` | core/conversation.py:26-39 | The new state is `Switched(old state, expert, reset_history)`; the invariant is kept. |
| `Conversation.ConversationManager.GetCurrentExpert` | core/conversation.py:41-42 | Returns the current expert. |
| `Conversation.ConversationManager.GetHistory` | core/conversation.py:44-48 | Returns `History(state, expert)`, a well-formed history of the resolved expert, and changes nothing. |
| `Conversation.ConversationManager.AddUserMessage` | core/conversation.py:50-57 | The new state is `Appended(old state, user, content, expert)`; the invariant is kept. |
| `Conversation.ConversationManager.AddAssistantMessage` | core/conversation.py:59-66 | The new state is `Appended(old state, assistant, content, expert)`; the invariant is kept. |
| `ConversationProperties.RunKeepsConsistent` | core/conversation.py:26-66 | From a consistent state, any sequence of switches, resets and appends leaves every history starting with its own system message and holding no other system message. |
| `ConversationProperties.ReachableIsConsistent` | core/conversation.py:11-66 | Every state reachable from construction satisfies the integrity invariant. |
| `ConversationProperties.AppendOrder` | core/conversation.py:50-66 | If a sequence of calls never resets expert x, then x's history ends as its old history followed by exactly the turns aimed at x, in call order. |
| `ConversationProperties.Isolation` | core/conversation.py:26-66 | Calls aimed at other experts, and switches that do not reset x, leave x's history exactly as it was. |
| `ConversationProperties.ResetIdempotent` | core/conversation.py:34-39 | Resetting e, doing anything, then resetting e again gives the same one-message history as the first reset: e's system message. |
| `ConversationProperties.SeededTurnsInOrder` | core/conversation.py:11-66 | On a freshly built manager, a user turn "A" then an assistant turn "B" make the current history exactly [system prompt, user "A", assistant "B"]. |
| `Chatbot.ListedNames` | core/chatbot.py:44 | One listed name per entry of the listing, in listing order. Each is the entry's `model` key unless it is missing or empty, else its `name` key. A missing `models` key counts as an empty list. |
| `Chatbot.IsModelListed` | core/chatbot.py:46 | The membership test holds exactly when some entry's listed name equals the configured model name. |
| `Chatbot.MissingModelSurfacesAsConnectionError` | core/chatbot.py:41-56 | As written, the check never reports ModelNotAvailableError. A reachable backend that lacks the model yields ConnectionErrorOllama. |
| `Chatbot.CheckModelAvailable` | core/chatbot.py:36-56 | The corrected check passes exactly when the backend answers and lists the model. It gives ModelNotAvailableError exactly when the backend answers without the model, and ConnectionErrorOllama exactly when the backend is unreachable. |
| `Chatbot.ChecksAgreeExceptOnMissingModel` | core/chatbot.py:41-56 | The written and corrected checks differ exactly on a reachable backend that does not list the model. |
| `Chatbot.Exchange` | core/chatbot.py:68-94 | The user turn is appended first. The context handed to the backend is the whole active history including that turn. On a reply, exactly one assistant turn with the reply content is appended and that content is returned. On a failure, nothing more is appended and ConnectionErrorOllama is raised. The active expert and the other histories do not change, and the invariant is preserved. |
| `Chatbot.ExchangeGrowth` | core/chatbot.py:73-94 | The active history grows by exactly two messages on success and by exactly one on failure. |
| `Chatbot.MissingContentIsEmpty` | core/chatbot.py:88-94 | A reply without `message`, or whose message has no `content`, is recorded as an assistant turn with "" and returned as "". |
| `Chatbot.ThematicChatbot.constructor` | core/chatbot.py:24-31 | The model name is stored and a fresh manager is seeded for the initial expert. |
| `Chatbot.ThematicChatbot.SetExpert` | core/chatbot.py:58-60 | Delegates to the manager: the new state is `Switched(old state, expert, reset_history)`. |
| `Chatbot.ThematicChatbot.GetActiveExpert` | core/chatbot.py:62-63 | Returns the manager's current expert. |
| `Chatbot.ThematicChatbot.GetHistory` | core/chatbot.py:65-66 | Returns the current expert's history, which is well formed. |
| `Chatbot.ThematicChatbot.SendMessage` | core/chatbot.py:68-94 | The new manager state and the returned result or error are exactly `Exchange(old state, model name, message, backend)`. |
| `Chatbot.Create` | core/chatbot.py:24-34 | Construction fails exactly when the model check fails, with the check's error. On success the chatbot is fresh, holds the model name, and starts from `Seeded(initial_expert)`. |

## Findings

| source | as written | input that shows it | evidently intended | confidence | as-written member | corrected member |
|---|---|---|---|---|---|---|
| core/chatbot.py:41-56 | The `ModelNotAvailableError` raised at line 47 is inside the `try`. The `except Exception` at line 51 catches it and raises `ConnectionErrorOllama` instead. | A reachable backend whose listing does not contain "gemma3:1b" (for instance an empty `models` list). | `ModelNotAvailableError` for a missing model and `ConnectionErrorOllama` only when the listing call fails. The docstring at line 39 says so, and main.py handles the two errors separately. | high; not executed | `Chatbot.MissingModelSurfacesAsConnectionError` (about `Chatbot.CheckModelAvailableAsWritten`) | `Chatbot.CheckModelAvailable` (used by `Chatbot.Create`) |

## Left out

- The Ollama service is not modelled. `ollama.list()` becomes a `ListOutcome` argument and `ollama.chat(...)` becomes a `Backend` function argument. Transport, blocking, timeouts and the `stream=False` option are outside the model.
- Exceptions that the source raises from malformed backend data are not modelled. One case is a listing entry that is not a dictionary. Another is a `message` key whose value is null, where `.get` on `None` raises `AttributeError`. The model's response types cannot express these shapes.
- The prompt texts and the exception messages are not modelled. Each prompt is a short distinct placeholder phrase. The errors carry no message.
- `ExpertPrompts.SystemPromptForExpert` folds the prompt dictionary and its lookup into one function by cases. Totality therefore comes from case exhaustiveness instead of a key check.
- `Conversation.ConversationManager.constructor`: the seeding loop (`Conversation.SeedHistories`) builds the map in a local variable and assigns it to the field once. The source appends to the field's lists in place. The resulting state is the same.
- `get_history` hands out the live list, so a caller could mutate a history behind the manager's back. Histories here are values owned by the manager, and this aliasing is not modelled.
- `Chatbot.Create` uses the corrected availability check (see Findings), not the as-written one.
- The source has no generic append that could take a system role, so there is no invalid-role error to model. Roles are fixed by `add_user_message` and `add_assistant_message`. There is also no unknown-expert error, because the expert type is closed.
- The interactive menu and conversation loop in main.py are not part of this model: they are input/output around `set_expert` and `send_message`.
