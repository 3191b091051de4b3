# Multi-agent debate engine and contract chunkers, modelled in Dafny

This project models two parts of the repository.

The first is the debate engine of `mad_framework/team.py`. A `Team` of
`Agent`s takes turns in the order `pattern * rounds`. At each turn the
speaking agent builds a chat message list from the response log of every
agent (`Agent.respond`). It answers through a language model and logs the
answer as `"<name>: <reply>"`. The answer is also recorded, with the name cut
off, in a dictionary keyed by `"Round N"`. Under the `"belief"` strategy, at
every `|pattern| * eval_rate`-th turn and after the last one, every agent
re-assesses each of its beliefs with a judge model (`Agent.eval`). A snapshot
of the beliefs is stored per agent and round.

The second is the three text chunkers of `mad_cuad/cuad_dataset.py`:
- by word count;
- by sentences, packed greedily against a word target;
- by paragraphs, then split at the middle sentence of the largest chunk,
  then merged at the lightest adjacent pair.

Modules:
- `Wrappers` holds `Option`.
- `Text` holds the Python string operations the code relies on, with their
  edge cases:
  - `join`;
  - `lstrip(chars)`, which strips a character *set*;
  - `lstrip()`, `strip()` and `split(sep)`;
  - `str(int)`.
- `Arith` holds small arithmetic facts. It also has a recursive
  divisibility test and a recursive quotient, each tied to `%` and `/`.
- `Messages` builds the message list of `respond`, as a specification
  function `View` and as the imperative loops of the source.
- `Beliefs` holds the belief update of `eval` and the rendering of
  `format_belief_box`.
- `Debate` holds the `Agent` and `Team` classes, the speaking order and the
  turn loop of `kickoff`. `kickoff` is proved to produce what specification
  functions over the ghost transcript of all turns give: `Transcript`,
  `AgentLog`, `Record`, `BeliefsAfter` and `Changes`.
- `Chunking` holds the three chunkers. Each is an imperative method proved
  equal to a specification function, and lemmas state what that function
  guarantees.

These outside effects are parameters:
- The language model is `complete: (nat, seq<Message>) -> Completion`. It
  receives the turn number, and it returns the reply text and the token
  counts.
- The belief judge is `judge: EvalQuery -> string`.
- `json.loads(...)["updated_strength"]` is `parse: string -> Option<int>`.
- NLTK's `sent_tokenize` is `tokenize: string -> seq<string>`.

Where the project's own documentation and the code disagree, the model
follows the code:
- The task prompt is added right after the system message exactly when
  the agent's *name contains the character '1'* (team.py:68-69), whatever
  the turn and whatever the agent's place in the speaking order.
  `ViewTaskPromptFirst` and `ViewTaskPromptNeedsOne` state it.
- The belief schema and the judge's prompt say strengths stay within 1..5
  (team.py:16, const.py:26-27 and const.py:58-62). The code stores
  whatever integer the judge's JSON carries, and 0 when parsing fails
  (team.py:158-163). `Revised` stores it the same way.
- An agent whose name has no '1', on an empty log, gets only the system
  message (`ViewOfEmptyLog`).

## Model

| member | source | states |
|---|---|---|
| Debate.CustomOrderSpec | mad_framework/team.py:265-273 | the order has `|pattern| * max(0, repetitions)` entries and entry `i` is `pattern[i % |pattern|]` |
| Messages.BuildMessages | mad_framework/team.py:57-114 | the message list the loops of `respond` build equals the specification `View` of the log for that agent |
| Messages.ReplayRound | mad_framework/team.py:74-88 | one pass over the agents for round `r` flushes the batch heard before the agent and appends its own cleaned response as an assistant message; the carried messages are those heard after it |
| Messages.GatherRound | mad_framework/team.py:96-99 | the new prompts are the other agents' responses of the agent's current round, in team order |
| Messages.SaidByFinds | mad_framework/team.py:64-66 | with distinct names, the log lookup by the agent's name finds the agent's own entry |
| Messages.ViewOpensWithSystem | mad_framework/team.py:59-62 | the view is never empty and starts with the system message "You are <name>. <system_text>" |
| Messages.ViewTaskPromptFirst | mad_framework/team.py:68-69 | an agent whose name contains '1' has a user message at position 1 whose content begins with the task prompt |
| Messages.ViewTaskPromptNeedsOne | mad_framework/team.py:68-69 | position 1 holds the bare task prompt as a user message only when the name contains '1' |
| Messages.ViewOfEmptyLog | mad_framework/team.py:62-69 | with no responses logged, the view is the system message plus the task prompt when the name contains '1', and nothing else |
| Messages.ViewAssistantMessages | mad_framework/team.py:84-85 | the assistant messages are exactly the agent's own responses in round order, each with its leading characters from the set of "<name>: " removed |
| Messages.ViewNoAdjacentUsers | mad_framework/team.py:76-112 | no two user messages are adjacent: each batch of other agents' responses goes into the last user message or a new one |
| Messages.ViewCoversEachResponseOnce | mad_framework/team.py:72-99 | the replayed batches, the carried messages and the new prompts together are every other agent's response up to the agent's current round, each once, round by round and in team order within a round |
| Beliefs.ExtractBracesSpec | mad_framework/team.py:152-156 | with no '{' before a '}', the reply is kept; otherwise the result is the span from the first '{' to the last '}' |
| Beliefs.ReassessEach | mad_framework/team.py:137-163 | `eval` keeps the number of beliefs and every statement; strength `k` is the parsed reply of the judge to a query showing beliefs `0..k-1` already revised and the rest as they were, or 0 when parsing fails |
| Beliefs.ReassessedFrom | mad_framework/team.py:137-163 | the same holds for the loop from any position `i` on, and the beliefs before `i` are left alone |
| Beliefs.BeliefBoxConcat | mad_framework/team.py:188 | the box of two non-empty runs is their boxes joined by " \n" |
| Debate.Agent.Respond | mad_framework/team.py:51-131 | the message list stored under the agent's name is its `View`, every other entry is kept, the response is "<name>: " plus the model's reply to that list, and the token counts are the model's |
| Debate.Agent.Eval | mad_framework/team.py:133-170 | the new beliefs are the `Reassessed` ones of the discussion joined by "\n", and the beliefs it started from are returned |
| Debate.Agent.FormatBeliefBox | mad_framework/team.py:173-188 | the text is the lines "<statement> (<strength> out of 5)" joined by " \n" |
| Debate.LabelInjective | mad_framework/team.py:229-260 | different round numbers give different "Round N" keys, and none of them is "Initial" |
| Debate.CleanResponse | mad_framework/team.py:247 | for a name without ':', the recorded output is the model reply with its leading whitespace removed |
| Debate.RecordTurn | mad_framework/team.py:243-248 | recording one turn gives the specification dictionary of the turns so far plus that one |
| Debate.RecordKeys | mad_framework/team.py:243-248 | `discussion_dict` has a key for exactly the rounds some turn falls in, and under it exactly the names that spoke in that round |
| Debate.RecordLastWriter | mad_framework/team.py:248 | the entry of a name in a round is the output of that name's last turn in the round |
| Debate.TranscriptTurn | mad_framework/team.py:232-239 | turn `t` is agent `order[t]` answering its view of the log of the first `t` turns |
| Debate.TranscriptPrefix | mad_framework/team.py:232-239 | later turns never rewrite earlier ones: the first `m` turns of any longer transcript are the `m`-turn transcript |
| Debate.BeliefsKeepStatements | mad_framework/team.py:256-260 | sweeps keep the number of beliefs and every statement text |
| Debate.ChangesKeys | mad_framework/team.py:227-260 | `belief_changes[name]` keeps "Initial" as the beliefs before any turn; its other keys are exactly the round keys of the sweep turns |
| Debate.ChangesLastSweep | mad_framework/team.py:256-260 | a round key holds the beliefs right after the last sweep of that round |
| Debate.NoSweepsWithoutBelief | mad_framework/team.py:256 | under any other strategy than "belief" the beliefs never change and only "Initial" is stored |
| Debate.Team.StartLogs | mad_framework/team.py:217-229 | before any turn the response log is the log of no turns, every message list is empty and every agent has only its "Initial" snapshot |
| Debate.Team.Sweep | mad_framework/team.py:258-260 | every agent's beliefs become its `Reassessed` beliefs on the discussion and are stored under the round key in its own entry; other entries are kept |
| Debate.Team.SweepIfDue | mad_framework/team.py:256-260 | after one more turn the beliefs and snapshots again follow the sweep schedule |
| Debate.Team.TakeTurn | mad_framework/team.py:232-260 | one turn takes the state after `turn` turns to the state after `turn + 1` turns: transcript, discussion, log, dictionary and beliefs |
| Debate.Team.RunTurns | mad_framework/team.py:215-262 | after the loop, `discussion_dict` is `Record` of the whole transcript and each agent's beliefs and snapshots are `BeliefsAfter` and `Changes` of the discussion |
| Debate.Team.Kickoff | mad_framework/team.py:206-262 | the same for the order `pattern * rounds`, with every speaker a valid agent index |
| Arith.DividesMod | mad_framework/team.py:257 | the recursive divisibility test used by the sweep schedule holds exactly when the remainder is 0, for either sign of the divisor |
| Arith.QuotDiv | mad_framework/team.py:233 | the recursive quotient used for round numbers is `//` on naturals |
| Text.LStripSpec | mad_framework/team.py:84 | `lstrip(chars)` leaves a suffix that does not start with a character of `chars`, and removes only such characters |
| Text.LStripSpaceSpec | mad_framework/team.py:247 | `lstrip()` leaves a suffix that does not start with whitespace, and removes only whitespace |
| Text.RStripSpaceSpec | mad_cuad/cuad_dataset.py:71 | `rstrip()` leaves a prefix that does not end in whitespace, and removes only whitespace |
| Text.SplitOnJoin | mad_cuad/cuad_dataset.py:71 | joining the pieces of `split("\n\n")` with "\n\n" gives back the text |
| Text.SplitOnLeftmost | mad_cuad/cuad_dataset.py:71 | the pieces are cut at the leftmost, non-overlapping occurrences of the separator: the last piece holds none, and every other piece meets the separator first where it ends |
| Text.IntToStringInjective | mad_framework/team.py:185 | distinct integers have distinct texts |
| Chunking.WordsAreWords | mad_cuad/cuad_dataset.py:13 | every piece of `split()` is non-empty and holds no whitespace |
| Chunking.WordsOfJoin | mad_cuad/cuad_dataset.py:13-19 | splitting words joined by single spaces gives back the words |
| Chunking.FloorDiv | mad_cuad/cuad_dataset.py:15 | Python's `//` rounds toward minus infinity, for either sign of the divisor |
| Chunking.GroupsSpec | mad_cuad/cuad_dataset.py:18-19 | the runs cover the input in order; each is non-empty; all but the last have exactly `size` elements; there are `ceil(len / size)` of them |
| Chunking.WordChunksSpec | mad_cuad/cuad_dataset.py:11-21 | the chunks hold the text's words in order; all but the last have `max(1, total // n)` words; there are `ceil(total / size)` chunks, possibly more than `n`; there are none exactly when the text has no words |
| Chunking.ChunkByWordCount | mad_cuad/cuad_dataset.py:11-21 | the loop returns `WordChunks(text, n)` |
| Chunking.PackSpec | mad_cuad/cuad_dataset.py:36-52 | the greedy groups hold the sentences in order, none is empty, and a group exceeds the word target only when it is a single sentence, and a group is closed only because its word count plus that of the next group's first sentence exceeds the target |
| Chunking.PackSentences | mad_cuad/cuad_dataset.py:36-52 | the greedy loop returns the greedy groups, each joined by spaces |
| Chunking.MergeTailSpec | mad_cuad/cuad_dataset.py:55-58 | merging the tail leaves `min(len, n)` chunks, keeps all but the last in place and keeps the space-joined text |
| Chunking.MergeLastTwo | mad_cuad/cuad_dataset.py:55-58 | the merge loop returns `MergeTail(chunks, n)` |
| Chunking.SentenceChunksSpec | mad_cuad/cuad_dataset.py:24-60 | the chunks, joined by spaces, are the sentences joined by spaces; there are `min(len(packed), n)` of them; all but the last are greedy chunks unchanged |
| Chunking.SentenceBasedChunk | mad_cuad/cuad_dataset.py:24-60 | the method returns `SentenceChunks(text, n, tokenize)` |
| Chunking.InitialChunksSpec | mad_cuad/cuad_dataset.py:71-86 | the first chunks, joined by "\n\n", are the paragraphs joined by "\n\n", and there is one as soon as there is a paragraph |
| Chunking.GroupParagraphs | mad_cuad/cuad_dataset.py:78-86 | the grouping loop returns the runs of `per` paragraphs, each joined by "\n\n" |
| Chunking.FirstArgMax | mad_cuad/cuad_dataset.py:90 | Python's `max(range(len))` with a key: the first position of a largest value |
| Chunking.FirstArgMin | mad_cuad/cuad_dataset.py:102 | Python's `min(range(len))` with a key: the first position of a smallest value |
| Chunking.HalvesJoin | mad_cuad/cuad_dataset.py:94-96 | the two halves, joined by a space, are the sentences joined by spaces |
| Chunking.SplitOnceSpec | mad_cuad/cuad_dataset.py:89-97 | a split replaces the first chunk with the most words by the two halves of its sentences and leaves every other chunk in place |
| Chunking.SplitAllSpec | mad_cuad/cuad_dataset.py:89-97 | the split loop never shrinks the list and never takes it past `n`; it stops short of `n` only when the largest chunk has at most one sentence |
| Chunking.SplitLargest | mad_cuad/cuad_dataset.py:89-97 | the split loop returns `SplitAll(chunks, n, tokenize)` |
| Chunking.MergeOnceSpec | mad_cuad/cuad_dataset.py:99-104 | a merge joins with "\n\n" the first adjacent pair with the fewest words, keeps every other chunk in place and keeps the "\n\n"-joined text |
| Chunking.MergeAllSpec | mad_cuad/cuad_dataset.py:99-104 | the merge loop leaves `min(len, n)` chunks and keeps the "\n\n"-joined text |
| Chunking.MergeLightest | mad_cuad/cuad_dataset.py:99-104 | the merge loop returns `MergeAll(chunks, n)` |
| Chunking.ParagraphChunksCount | mad_cuad/cuad_dataset.py:64-106 | the result has at most `n` chunks, and exactly `n` unless the largest chunk has at most one sentence |
| Chunking.ParagraphBasedChunk | mad_cuad/cuad_dataset.py:64-106 | the method returns `ParagraphChunks(text, n, tokenize)` |

## Left out

- The `gpt-4o-mini-2024-07-18` branches of `respond` and `eval` (team.py:120-121, 146-147) are not modelled. They call an OpenAI client that is not part of this model, and only the local-model path is.
- Model loading (`load_model`), the `print` calls and `Agent.describe` are left out: they are I/O, or they only build a string that is thrown away.
- `respond` builds a belief box (team.py:57) that it never uses. The box is modelled by `FormatBeliefBox`, but the call is not.
- Debate.Agent.Eval: the judge's prompt text (`belief_eval_prompt` and the Python `repr` of the beliefs in const.py) is left out. The judge receives instead a structured `EvalQuery` with the name, persona, current beliefs, belief index and discussion text.
- Debate.Agent.Eval: returns the starting beliefs rather than the summary string of team.py:170. Only `kickoff` calls it, and it ignores that string.
- Beliefs.Belief: initial strengths are integers. The source types them as `float` (team.py:24, 36), where a float would print as `4.0` in the belief box. The repository's callers pass integers (team.py:284) or no beliefs at all (run_mmlu.py:99).
- Beliefs.Revised: strengths are integers. A JSON value that is a float or a non-number is modelled as a parse failure (`None`, stored as 0). In Python it would be stored as it is.
- `respond` stores its message list into the caller's `message_log` dictionary in place. `Respond` returns the updated map instead. `kickoff` never returns `message_log`, so `Kickoff` specifies only `discussion_dict` and `belief_changes`.
- `deepcopy` of the beliefs (team.py:229, 260) is modelled by value semantics: a `seq<Belief>` snapshot cannot alias the agent's later beliefs.
- The model `complete`, the judge and `parse` are modelled as deterministic functions. Real model calls may differ between two identical prompts; a call's turn number is passed so that each turn may get its own answer.
- Debate.Team.Kickoff: its preconditions leave out what makes the source crash: a pattern entry that is not a valid agent index, and `eval_rate == 0` under the "belief" strategy (a `ZeroDivisionError`). Negative pattern entries, which Python would read from the end of the list, are not modelled (`nat`).
- Agents with the same name share one entry in the source's dictionaries. The model requires distinct names.
- `sent_tokenize` is the parameter `tokenize`. Its sentence-boundary rules (NLTK's Punkt model) are not modelled.
- Chunking.ChunkByWordCount: `n == 0` raises `ZeroDivisionError` in the source, and the precondition excludes it. Negative `n` is handled through Python's floor division.
- Chunking.SentenceBasedChunk: the precondition `n >= 1` excludes `n == 0`, which raises `ZeroDivisionError`, and negative `n`, where `chunks[-2]` raises `IndexError`.
- Chunking.ParagraphBasedChunk: the precondition `ParagraphCallable` admits exactly the calls that do not raise: `n >= 1` with a paragraph, or `n == 0` without one.
- The module-level script of cuad_dataset.py (lines 113 on: reading the CUAD files with pandas and writing the chunks) is left out. It is file I/O.
- mad_efficient/run_mmlu.py and the library wrappers huggingface_lib.py, ollama_lib.py and openai_lib.py are not part of this model.
