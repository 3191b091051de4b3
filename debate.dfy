/**
  The debate engine of mad_framework/team.py: the `Agent` and `Team` classes,
  the speaking order, and the turn loop of `Team.kickoff`.

  Each turn one agent, chosen by the speaking order, sees the message list
  built from the response log (module Messages) and answers. Its response,
  prefixed with its name, is appended to its own log and to the discussion,
  and recorded under "Round N" with the name cut off. Under the "belief"
  strategy, every agent revises its beliefs at the checkpoints and a snapshot
  is stored per agent and round.

  The language model is the parameter `complete`, given the turn number and
  the message list; the judge and the JSON parser of `eval` are the
  parameters `judge` and `parse` (module Beliefs).

  The specification is a set of functions over the turns taken so far:
  `Transcript` (who spoke and what), `AgentLog` (the response log),
  `Record` (the "Round N" dictionary) and, per agent, `BeliefsAfter` and
  `Changes` (the belief snapshots). `Kickoff` is proved to produce them.
 */
module Debate {
  import opened Wrappers
  import opened Text
  import opened Messages
  import opened Beliefs
  import opened Arith

  datatype TokenCount = TokenCount(promptTokens: nat, generatedTokens: nat)

  /** What the language model returns: the reply text and its token counts. */
  datatype Completion = Completion(text: string, tokens: TokenCount)

  /** The record of one response: `{"output": ..., "prompt_token": ..., "generated_token": ...}`. */
  datatype Output = Output(output: string, promptToken: nat, generatedToken: nat)

  /** One turn: the agent that spoke (its position and its name), the model's reply and the token counts. */
  datatype Turn = Turn(speaker: nat, name: string, reply: string, tokens: TokenCount)
  {
    /** The response as logged: `f"{self.name}: {model_respond}"`. */
    function Response(): string
    {
      name + ": " + reply
    }
  }

  // ----- The speaking order -----

  /** `pattern * repetitions`: the pattern repeated; no repetition at all when `repetitions <= 0`. */
  function GenerateCustomOrder(pattern: seq<nat>, repetitions: int): seq<nat>
    decreases repetitions
  {
    if repetitions <= 0 then [] else pattern + GenerateCustomOrder(pattern, repetitions - 1)
  }

  /** The order has `|pattern| * repetitions` entries, and entry `i` is `pattern[i % |pattern|]`. */
  lemma {:induction false} CustomOrderSpec(pattern: seq<nat>, repetitions: int)
    ensures |GenerateCustomOrder(pattern, repetitions)| == |pattern| * (if repetitions < 0 then 0 else repetitions)
    ensures forall i :: 0 <= i < |GenerateCustomOrder(pattern, repetitions)| ==>
      GenerateCustomOrder(pattern, repetitions)[i] == pattern[i % |pattern|]
    decreases repetitions
  {
    if repetitions > 0 {
      CustomOrderSpec(pattern, repetitions - 1);
      var rest := GenerateCustomOrder(pattern, repetitions - 1);
      var order := GenerateCustomOrder(pattern, repetitions);
      assert |order| == |pattern| + |pattern| * (repetitions - 1);
      forall i | 0 <= i < |order|
        ensures order[i] == pattern[i % |pattern|]
      {
        if i >= |pattern| {
          assert order[i] == rest[i - |pattern|];
          ModShift(i, |pattern|);
        }
      }
    }
  }

  // ----- Keys of the result dictionaries -----

  /** `f"Round {k}"`. */
  function Label(k: nat): string
  {
    "Round " + NatToString(k)
  }

  /** Different rounds have different keys, and no round key is "Initial". */
  lemma {:induction false} LabelInjective(a: nat, b: nat)
    ensures Label(a) == Label(b) <==> a == b
    ensures Label(a) != "Initial"
  {
    if Label(a) == Label(b) {
      assert NatToString(a) == Label(a)[6..] == NatToString(b);
      NatToStringInjective(a, b);
    }
    assert Label(a)[0] == 'R';
  }

  /** The key of the round that turn `t` belongs to: round `t // roundLength + 1` (`Quot` is `//`, by `QuotDiv`). */
  function RoundKey(t: nat, roundLength: nat): string
    requires roundLength > 0
  {
    Label(Quot(t, roundLength) + 1)
  }

  // ----- The recorded output -----

  /** `response.split(':', 1)[1].lstrip()`: what follows the first ':' with leading whitespace removed. */
  function Clean(response: string): string
    requires ':' in response
  {
    var i := FirstIndexOf(response, ':');
    LStripSpace(response[i + 1..])
  }

  /** For a name without ':', the recorded output is the model's reply with leading whitespace removed. */
  lemma {:induction false} CleanResponse(name: string, text: string)
    requires ':' !in name
    ensures ':' in name + ": " + text
    ensures Clean(name + ": " + text) == LStripSpace(text)
  {
    var response := name + ": " + text;
    assert response[|name|] == ':';
    var i := FirstIndexOf(response, ':');
    assert forall k :: 0 <= k < |name| ==> response[k] == name[k];
    assert i == |name|;
    assert response[i + 1..] == " " + text;
    assert (" " + text)[1..] == text;
  }

  /** The dictionary entry for one turn. */
  function OutputOf(turn: Turn): Output
  {
    assert turn.Response()[|turn.name|] == ':';
    Output(Clean(turn.Response()), turn.tokens.promptTokens, turn.tokens.generatedTokens)
  }

  // ----- The specification of the turn loop -----

  /** Agents are keyed by name. */
  predicate Distinct(names: seq<string>)
  {
    forall i, j :: 0 <= i < j < |names| ==> names[i] != names[j]
  }

  /** The responses of agent `a`, in turn order: `agent_log[name]`. */
  function SpokenBy(turns: seq<Turn>, a: nat): seq<string>
    decreases |turns|
  {
    if |turns| == 0 then []
    else
      SpokenBy(turns[..|turns| - 1], a)
      + (if turns[|turns| - 1].speaker == a then [turns[|turns| - 1].Response()] else [])
  }

  /** The response log in team order. */
  function AgentLog(names: seq<string>, turns: seq<Turn>): (log: seq<Entry>)
    ensures |log| == |names|
    ensures forall a :: 0 <= a < |names| ==> log[a] == Entry(names[a], SpokenBy(turns, a))
  {
    seq(|names|, a requires 0 <= a < |names| => Entry(names[a], SpokenBy(turns, a)))
  }

  /** The discussion: every response, in turn order. */
  function Responses(turns: seq<Turn>): (d: seq<string>)
    ensures |d| == |turns|
    ensures forall t :: 0 <= t < |turns| ==> d[t] == turns[t].Response()
  {
    seq(|turns|, t requires 0 <= t < |turns| => turns[t].Response())
  }

  predicate Speakers(names: seq<string>, order: seq<nat>)
  {
    forall t :: 0 <= t < |order| ==> order[t] < |names|
  }

  /** The turn after `prior`: agent `order[|prior|]` logs its name and the model's reply to its view of the log. */
  function NextTurn(names: seq<string>, order: seq<nat>, systemText: string, taskPrompt: string,
                    complete: (nat, seq<Message>) -> Completion, prior: seq<Turn>): Turn
    requires Speakers(names, order) && |prior| < |order|
  {
    var a := order[|prior|];
    var reply := complete(|prior|, View(systemText, taskPrompt, AgentLog(names, prior), a));
    Turn(a, names[a], reply.text, reply.tokens)
  }

  /** `n` turns, each the result of `step` on the turns before it. */
  function Grow(step: seq<Turn> --> Turn, n: nat): (s: seq<Turn>)
    requires forall p: seq<Turn> :: |p| < n ==> step.requires(p)
    ensures |s| == n
    decreases n
  {
    if n == 0 then []
    else
      var prior := Grow(step, n - 1);
      prior + [step(prior)]
  }

  /** Later turns do not change earlier ones: turn `t` is `step` applied to the first `t` turns. */
  lemma {:induction false} GrowAt(step: seq<Turn> --> Turn, n: nat, t: nat)
    requires forall p: seq<Turn> :: |p| < n ==> step.requires(p)
    requires t < n
    ensures Grow(step, n)[t] == step(Grow(step, t))
    decreases n
  {
    if t < n - 1 {
      GrowAt(step, n - 1, t);
      var prior := Grow(step, n - 1);
      assert Grow(step, n)[t] == (prior + [step(prior)])[t] == prior[t];
    }
  }

  /** What the turn loop does with the turns before it. */
  function Step(names: seq<string>, order: seq<nat>, systemText: string, taskPrompt: string,
                complete: (nat, seq<Message>) -> Completion): seq<Turn> --> Turn
  {
    (prior: seq<Turn>) requires Speakers(names, order) && |prior| < |order| =>
      NextTurn(names, order, systemText, taskPrompt, complete, prior)
  }

  /** The first `n` turns of the speaking order. */
  function Transcript(names: seq<string>, order: seq<nat>, systemText: string, taskPrompt: string,
                      complete: (nat, seq<Message>) -> Completion, n: nat): (turns: seq<Turn>)
    requires Speakers(names, order) && n <= |order|
    ensures |turns| == n
  {
    Grow(Step(names, order, systemText, taskPrompt, complete), n)
  }

  /**
    Turn `t` of any transcript that reaches it is agent `order[t]`'s reply to
    its view of the log of the first `t` turns.
   */
  lemma {:induction false} TranscriptTurn(names: seq<string>, order: seq<nat>, systemText: string, taskPrompt: string,
                       complete: (nat, seq<Message>) -> Completion, n: nat, t: nat)
    requires Speakers(names, order) && t < n <= |order|
    ensures var a := order[t];
      var reply := complete(t, View(systemText, taskPrompt,
                                    AgentLog(names, Transcript(names, order, systemText, taskPrompt, complete, t)), a));
      Transcript(names, order, systemText, taskPrompt, complete, n)[t] == Turn(a, names[a], reply.text, reply.tokens)
  {
    GrowAt(Step(names, order, systemText, taskPrompt, complete), n, t);
  }

  /** Later turns never change earlier ones: the first `m` turns of `step` grown to `n` are those grown to `m`. */
  lemma {:induction false} GrowPrefix(step: seq<Turn> --> Turn, n: nat, m: nat)
    requires forall p: seq<Turn> :: |p| < n ==> step.requires(p)
    requires m <= n
    ensures Grow(step, n)[..m] == Grow(step, m)
    decreases n
  {
    if m < n {
      GrowPrefix(step, n - 1, m);
      var prior := Grow(step, n - 1);
      assert Grow(step, n)[..n - 1] == prior;
      assert Grow(step, n)[..m] == prior[..m];
    } else {
      assert Grow(step, n)[..n] == Grow(step, n);
    }
  }

  /** A longer transcript extends a shorter one: what happened in the first `m` turns is never rewritten. */
  lemma {:induction false} TranscriptPrefix(names: seq<string>, order: seq<nat>, systemText: string, taskPrompt: string,
                                            complete: (nat, seq<Message>) -> Completion, n: nat, m: nat)
    requires Speakers(names, order) && m <= n <= |order|
    ensures Transcript(names, order, systemText, taskPrompt, complete, n)[..m]
         == Transcript(names, order, systemText, taskPrompt, complete, m)
  {
    GrowPrefix(Step(names, order, systemText, taskPrompt, complete), n, m);
  }

  /** One more turn appends the reply of the next speaker to the transcript. */
  lemma {:induction false} TranscriptNext(names: seq<string>, order: seq<nat>, systemText: string, taskPrompt: string,
                                          complete: (nat, seq<Message>) -> Completion, n: nat)
    requires Speakers(names, order) && n < |order|
    ensures Transcript(names, order, systemText, taskPrompt, complete, n + 1)
         == Transcript(names, order, systemText, taskPrompt, complete, n)
            + [NextTurn(names, order, systemText, taskPrompt, complete,
                        Transcript(names, order, systemText, taskPrompt, complete, n))]
  {
  }

  /** The round key of each of the first `n` turns. */
  function RoundKeys(roundLength: nat, n: nat): (keys: seq<string>)
    requires n == 0 || roundLength > 0
    ensures |keys| == n
    ensures forall t :: 0 <= t < n ==> keys[t] == RoundKey(t, roundLength)
  {
    seq(n, t requires 0 <= t < n => RoundKey(t, roundLength))
  }

  /** The dictionary after recording, in order, the output of each turn `t` under `keys[t]` and the speaker's name. */
  function Fill(keys: seq<string>, turns: seq<Turn>): map<string, map<string, Output>>
    requires |keys| == |turns|
    decreases |turns|
  {
    if |turns| == 0 then map[]
    else
      var t := |turns| - 1;
      var prior := Fill(keys[..t], turns[..t]);
      var inner := if keys[t] in prior then prior[keys[t]] else map[];
      prior[keys[t] := inner[turns[t].name := OutputOf(turns[t])]]
  }

  /** `discussion_dict` after `turns`: per round key, per name, the entry of that name's latest turn in the round. */
  function Record(roundLength: nat, turns: seq<Turn>): map<string, map<string, Output>>
    requires |turns| == 0 || roundLength > 0
  {
    Fill(RoundKeys(roundLength, |turns|), turns)
  }

  lemma {:induction false} FillKeys(keys: seq<string>, turns: seq<Turn>)
    requires |keys| == |turns|
    ensures forall key :: key in Fill(keys, turns) <==> exists t :: 0 <= t < |turns| && keys[t] == key
    decreases |turns|
  {
    if |turns| > 0 {
      var t := |turns| - 1;
      FillKeys(keys[..t], turns[..t]);
      assert forall u :: 0 <= u < t ==> keys[..t][u] == keys[u];
    }
  }

  lemma {:induction false} FillNames(keys: seq<string>, turns: seq<Turn>)
    requires |keys| == |turns|
    ensures forall key, name :: key in Fill(keys, turns) ==>
      (name in Fill(keys, turns)[key] <==> exists t :: 0 <= t < |turns| && keys[t] == key && turns[t].name == name)
    decreases |turns|
  {
    if |turns| > 0 {
      var t := |turns| - 1;
      FillNames(keys[..t], turns[..t]);
      FillKeys(keys[..t], turns[..t]);
      assert forall u :: 0 <= u < t ==> keys[..t][u] == keys[u] && turns[..t][u] == turns[u];
    }
  }

  /**
    The dictionary has a key for exactly the rounds some turn belongs to, and
    under it exactly the names of the agents that spoke in that round.
   */
  lemma {:induction false} RecordKeys(roundLength: nat, turns: seq<Turn>)
    requires roundLength > 0
    ensures forall key :: key in Record(roundLength, turns) <==>
      exists t :: 0 <= t < |turns| && RoundKey(t, roundLength) == key
    ensures forall key, name :: key in Record(roundLength, turns) ==>
      (name in Record(roundLength, turns)[key] <==>
         exists t :: 0 <= t < |turns| && RoundKey(t, roundLength) == key && turns[t].name == name)
  {
    FillKeys(RoundKeys(roundLength, |turns|), turns);
    FillNames(RoundKeys(roundLength, |turns|), turns);
  }

  /** The turn recorded last holds its entry. */
  lemma {:induction false} FillLast(keys: seq<string>, turns: seq<Turn>)
    requires |keys| == |turns| > 0
    ensures var last := |turns| - 1;
      && keys[last] in Fill(keys, turns) && turns[last].name in Fill(keys, turns)[keys[last]]
      && Fill(keys, turns)[keys[last]][turns[last].name] == OutputOf(turns[last])
  {
  }

  /** Recording one more turn leaves every other entry as it was. */
  lemma {:induction false} FillKeepsOthers(keys: seq<string>, turns: seq<Turn>, key: string, name: string)
    requires |keys| == |turns| > 0
    requires var last := |turns| - 1;
      && key in Fill(keys[..last], turns[..last]) && name in Fill(keys[..last], turns[..last])[key]
      && (keys[last] != key || turns[last].name != name)
    ensures var last := |turns| - 1;
      && key in Fill(keys, turns) && name in Fill(keys, turns)[key]
      && Fill(keys, turns)[key][name] == Fill(keys[..last], turns[..last])[key][name]
  {
    var last := |turns| - 1;
    var before := Fill(keys[..last], turns[..last]);
    var entry := OutputOf(turns[last]);
    var inner := if keys[last] in before then before[keys[last]] else map[];
    assert Fill(keys, turns) == before[keys[last] := inner[turns[last].name := entry]];
    if keys[last] == key {
      assert inner == before[key];
      assert Fill(keys, turns)[key] == before[key][turns[last].name := entry];
    }
  }

  lemma {:induction false} FillLastWriter(keys: seq<string>, turns: seq<Turn>, t: nat)
    requires |keys| == |turns| && t < |turns|
    requires forall u :: t < u < |turns| ==> keys[u] != keys[t] || turns[u].name != turns[t].name
    ensures keys[t] in Fill(keys, turns) && turns[t].name in Fill(keys, turns)[keys[t]]
    ensures Fill(keys, turns)[keys[t]][turns[t].name] == OutputOf(turns[t])
    decreases |turns|
  {
    var last := |turns| - 1;
    if t < last {
      var ks, ts := keys[..last], turns[..last];
      assert ks[t] == keys[t] && ts[t] == turns[t];
      forall u | t < u < |ts|
        ensures ks[u] != ks[t] || ts[u].name != ts[t].name
      {
        assert ks[u] == keys[u] && ts[u] == turns[u];
      }
      FillLastWriter(ks, ts, t);
      FillKeepsOthers(keys, turns, keys[t], turns[t].name);
    } else {
      FillLast(keys, turns);
    }
  }

  /**
    A repeat speaker overwrites its entry: the entry for a name in a round is
    the output of that name's last turn in the round.
   */
  lemma {:induction false} RecordLastWriter(roundLength: nat, turns: seq<Turn>, t: nat)
    requires roundLength > 0 && t < |turns|
    requires forall u :: t < u < |turns| ==>
      RoundKey(u, roundLength) != RoundKey(t, roundLength) || turns[u].name != turns[t].name
    ensures RoundKey(t, roundLength) in Record(roundLength, turns)
    ensures turns[t].name in Record(roundLength, turns)[RoundKey(t, roundLength)]
    ensures Record(roundLength, turns)[RoundKey(t, roundLength)][turns[t].name] == OutputOf(turns[t])
  {
    FillLastWriter(RoundKeys(roundLength, |turns|), turns, t);
  }

  // ----- The specification of the belief sweeps -----

  /**
    When sweeps run: under the "belief" strategy, after every turn whose
    number is a multiple of `period` (`|pattern| * eval_rate`) and after the
    last of `total` turns; `roundLength` is `|pattern|`.
   */
  datatype Schedule = Schedule(belief: bool, roundLength: nat, period: int, total: nat)

  /** The remainder by `|pattern| * eval_rate` is only taken when there are turns under the "belief" strategy. */
  predicate ValidSchedule(s: Schedule)
  {
    && (s.total > 0 ==> s.roundLength > 0)
    && (s.belief && s.total > 0 ==> s.period != 0)
  }

  /**
    A sweep follows turn `t` when `(t + 1) % (|pattern| * eval_rate) == 0` or
    `t` is the last turn. Only whether the remainder is zero matters, which is
    the same for Python's `%` (sign of the divisor) and Dafny's; `Divides` is
    that test (`DividesMod`).
   */
  predicate SweepAt(s: Schedule, t: nat)
    requires ValidSchedule(s) && t < s.total
  {
    s.belief && (Divides(s.period, t + 1) || t + 1 == s.total)
  }

  /** An agent's beliefs after the turns of `discussion`: each sweep re-assesses them on the discussion so far. */
  function BeliefsAfter(s: Schedule, name: string, persona: string, initial: seq<Belief>, judge: EvalQuery -> string,
                        parse: string -> Option<int>, discussion: seq<string>): seq<Belief>
    requires ValidSchedule(s) && |discussion| <= s.total
    decreases |discussion|
  {
    if |discussion| == 0 then initial
    else
      var prior := BeliefsAfter(s, name, persona, initial, judge, parse, discussion[..|discussion| - 1]);
      if SweepAt(s, |discussion| - 1) then Reassessed(name, persona, Join("\n", discussion), judge, parse, prior, 0)
      else prior
  }

  /** `belief_changes[name]` after the turns of `discussion`: "Initial", then a snapshot per sweep under its round key. */
  function Changes(s: Schedule, name: string, persona: string, initial: seq<Belief>, judge: EvalQuery -> string,
                   parse: string -> Option<int>, discussion: seq<string>): map<string, seq<Belief>>
    requires ValidSchedule(s) && |discussion| <= s.total
    decreases |discussion|
  {
    if |discussion| == 0 then map["Initial" := initial]
    else
      var t := |discussion| - 1;
      var prior := Changes(s, name, persona, initial, judge, parse, discussion[..t]);
      if SweepAt(s, t) then prior[RoundKey(t, s.roundLength) := BeliefsAfter(s, name, persona, initial, judge, parse, discussion)]
      else prior
  }

  /** Sweeps keep the number of beliefs and every statement text. */
  lemma {:induction false} BeliefsKeepStatements(s: Schedule, name: string, persona: string, initial: seq<Belief>,
                                                 judge: EvalQuery -> string, parse: string -> Option<int>, discussion: seq<string>)
    requires ValidSchedule(s) && |discussion| <= s.total
    ensures var b := BeliefsAfter(s, name, persona, initial, judge, parse, discussion);
      |b| == |initial| && forall k :: 0 <= k < |b| ==> b[k].statement == initial[k].statement
    decreases |discussion|
  {
    if |discussion| > 0 {
      var prior := BeliefsAfter(s, name, persona, initial, judge, parse, discussion[..|discussion| - 1]);
      BeliefsKeepStatements(s, name, persona, initial, judge, parse, discussion[..|discussion| - 1]);
      ReassessEach(name, persona, Join("\n", discussion), judge, parse, prior);
    }
  }

  /**
    The "Initial" snapshot is the beliefs before any turn and is never
    replaced; the other keys are exactly the round keys of the sweep turns.
   */
  lemma {:induction false} ChangesKeys(s: Schedule, name: string, persona: string, initial: seq<Belief>,
                                       judge: EvalQuery -> string, parse: string -> Option<int>, discussion: seq<string>)
    requires ValidSchedule(s) && |discussion| <= s.total
    ensures "Initial" in Changes(s, name, persona, initial, judge, parse, discussion)
    ensures Changes(s, name, persona, initial, judge, parse, discussion)["Initial"] == initial
    ensures forall key :: key in Changes(s, name, persona, initial, judge, parse, discussion) && key != "Initial" <==>
      exists t :: 0 <= t < |discussion| && SweepAt(s, t) && RoundKey(t, s.roundLength) == key
    decreases |discussion|
  {
    if |discussion| > 0 {
      var t := |discussion| - 1;
      ChangesKeys(s, name, persona, initial, judge, parse, discussion[..t]);
      if SweepAt(s, t) {
        LabelInjective(Quot(t, s.roundLength) + 1, 0);
      }
    }
  }

  /** The snapshot under a sweep's round key is the beliefs right after the last sweep of that round. */
  lemma {:induction false} ChangesLastSweep(s: Schedule, name: string, persona: string, initial: seq<Belief>,
                                            judge: EvalQuery -> string, parse: string -> Option<int>,
                                            discussion: seq<string>, t: nat)
    requires ValidSchedule(s) && |discussion| <= s.total && t < |discussion| && SweepAt(s, t)
    requires forall u :: t < u < |discussion| && SweepAt(s, u) ==> RoundKey(u, s.roundLength) != RoundKey(t, s.roundLength)
    ensures RoundKey(t, s.roundLength) in Changes(s, name, persona, initial, judge, parse, discussion)
    ensures Changes(s, name, persona, initial, judge, parse, discussion)[RoundKey(t, s.roundLength)]
         == BeliefsAfter(s, name, persona, initial, judge, parse, discussion[..t + 1])
    decreases |discussion|
  {
    var last := |discussion| - 1;
    if t < last {
      ChangesLastSweep(s, name, persona, initial, judge, parse, discussion[..last], t);
      assert discussion[..last][..t + 1] == discussion[..t + 1];
    } else {
      assert discussion[..t + 1] == discussion;
    }
  }

  /** Under any other strategy than "belief" the beliefs never change and only "Initial" is stored. */
  lemma {:induction false} NoSweepsWithoutBelief(s: Schedule, name: string, persona: string, initial: seq<Belief>,
                                                 judge: EvalQuery -> string, parse: string -> Option<int>, discussion: seq<string>)
    requires ValidSchedule(s) && |discussion| <= s.total && !s.belief
    ensures BeliefsAfter(s, name, persona, initial, judge, parse, discussion) == initial
    ensures Changes(s, name, persona, initial, judge, parse, discussion) == map["Initial" := initial]
    decreases |discussion|
  {
    if |discussion| > 0 {
      NoSweepsWithoutBelief(s, name, persona, initial, judge, parse, discussion[..|discussion| - 1]);
    }
  }

  // ----- One turn of the specification -----

  lemma {:induction false} AgentLogStep(names: seq<string>, turns: seq<Turn>, x: Turn)
    requires x.speaker < |names|
    ensures AgentLog(names, turns + [x])
         == AgentLog(names, turns)[x.speaker := Entry(names[x.speaker], SpokenBy(turns, x.speaker) + [x.Response()])]
  {
    assert (turns + [x])[..|turns|] == turns;
    var after := AgentLog(names, turns + [x]);
    var updated := AgentLog(names, turns)[x.speaker := Entry(names[x.speaker], SpokenBy(turns, x.speaker) + [x.Response()])];
    forall a | 0 <= a < |names|
      ensures after[a] == updated[a]
    {
      assert SpokenBy(turns + [x], a) == SpokenBy(turns, a) + (if x.speaker == a then [x.Response()] else []);
    }
  }

  lemma {:induction false} ResponsesStep(turns: seq<Turn>, x: Turn)
    ensures Responses(turns + [x]) == Responses(turns) + [x.Response()]
  {
  }

  lemma {:induction false} RecordStep(roundLength: nat, turns: seq<Turn>, x: Turn)
    requires roundLength > 0
    ensures var prior := Record(roundLength, turns);
      var key := RoundKey(|turns|, roundLength);
      var inner := if key in prior then prior[key] else map[];
      Record(roundLength, turns + [x]) == prior[key := inner[x.name := OutputOf(x)]]
  {
    assert (turns + [x])[..|turns|] == turns;
    assert RoundKeys(roundLength, |turns| + 1)[..|turns|] == RoundKeys(roundLength, |turns|);
  }

  /** Recording one response under its round key (team.py:243-248). */
  method RecordTurn(discussionDict: map<string, map<string, Output>>, roundLength: nat, ghost turns: seq<Turn>,
                    ghost x: Turn, turn: nat, name: string, response: string, tokens: TokenCount)
    returns (discussionDict': map<string, map<string, Output>>)
    requires roundLength > 0 && turn == |turns| && discussionDict == Record(roundLength, turns)
    requires name == x.name && response == x.Response() && tokens == x.tokens
    ensures discussionDict' == Record(roundLength, turns + [x])
  {
    RecordStep(roundLength, turns, x);
    var roundKey := RoundKey(turn, roundLength);
    discussionDict' := discussionDict;
    if roundKey !in discussionDict' {
      discussionDict' := discussionDict'[roundKey := map[]];
    }
    assert response[|name|] == ':';
    var cleanResponse := Clean(response);
    discussionDict' := discussionDict'[roundKey := discussionDict'[roundKey][name :=
      Output(cleanResponse, tokens.promptTokens, tokens.generatedTokens)]];
  }

  // ----- The classes -----

  class Agent {
    const name: string
    const persona: string
    var beliefs: seq<Belief>

    constructor (name: string, persona: string, beliefs: seq<Belief>)
      ensures this.name == name && this.persona == persona && this.beliefs == beliefs
    {
      this.name := name;
      this.persona := persona;
      this.beliefs := beliefs;
    }

    /**
      `respond` (team.py:57-131) for the agent at position `self` of the log:
      the message list it builds is stored under its own name in the message
      log, every other entry is kept, and the response is the name, ": " and
      the model's reply to that list.
     */
    method Respond(systemText: string, taskPrompt: string, agentLog: seq<Entry>, messageLog: map<string, seq<Message>>,
                   ghost self: nat, turn: nat, complete: (nat, seq<Message>) -> Completion)
      returns (response: string, tokens: TokenCount, messageLog': map<string, seq<Message>>)
      requires self < |agentLog| && agentLog[self].name == name && DistinctNames(agentLog)
      ensures messageLog' == messageLog[name := View(systemText, taskPrompt, agentLog, self)]
      ensures response == name + ": " + complete(turn, View(systemText, taskPrompt, agentLog, self)).text
      ensures tokens == complete(turn, View(systemText, taskPrompt, agentLog, self)).tokens
    {
      var messages := BuildMessages(systemText, name, taskPrompt, agentLog, self);
      messageLog' := messageLog[name := messages];
      var reply := complete(turn, messages);
      response := name + ": " + reply.text;
      tokens := reply.tokens;
    }

    /**
      `eval` (team.py:133-170): every belief is re-assessed in order, each
      query showing the beliefs as revised so far; returns the beliefs it
      started from.
     */
    method Eval(discussion: seq<string>, judge: EvalQuery -> string, parse: string -> Option<int>)
      returns (before: seq<Belief>)
      modifies this
      ensures before == old(beliefs)
      ensures beliefs == Reassessed(name, persona, Join("\n", discussion), judge, parse, before, 0)
    {
      before := beliefs;
      var text := Join("\n", discussion);
      var i := 0;
      while i < |beliefs|
        invariant 0 <= i <= |beliefs|
        invariant Reassessed(name, persona, text, judge, parse, beliefs, i)
               == Reassessed(name, persona, text, judge, parse, before, 0)
        decreases |beliefs| - i
      {
        var reply := judge(EvalQuery(name, persona, beliefs, i, text));
        var extracted := ExtractBraces(reply);
        match parse(extracted) {
          case Some(strength) =>
            beliefs := beliefs[i := Belief(beliefs[i].statement, strength)];
          case None =>
            beliefs := beliefs[i := Belief(beliefs[i].statement, 0)];
        }
        i := i + 1;
      }
    }

    /** `format_belief_box` (team.py:173-188): one line per belief, joined by " \n". */
    method FormatBeliefBox(box: seq<Belief>) returns (text: string)
      ensures text == BeliefBox(box)
    {
      var formatted: seq<string> := [];
      var i := 0;
      while i < |box|
        invariant 0 <= i <= |box|
        invariant |formatted| == i
        invariant formatted == BeliefLines(box[..i])
      {
        var line := box[i].statement + " (" + IntToString(box[i].strength) + " out of 5)";
        assert line == BeliefLine(box[i]);
        assert box[..i + 1] == box[..i] + [box[i]];
        formatted := formatted + [line];
        i := i + 1;
      }
      assert box[..i] == box;
      text := Join(" \n", formatted);
    }
  }

  class Team {
    const agents: seq<Agent>
    const pattern: seq<nat>
    const strategy: string

    constructor (agents: seq<Agent>, pattern: seq<nat>, strategy: string)
      ensures this.agents == agents && this.pattern == pattern && this.strategy == strategy
    {
      this.agents := agents;
      this.pattern := pattern;
      this.strategy := strategy;
    }

    /** The agents' names, in team order. */
    function Names(): (names: seq<string>)
      ensures |names| == |agents|
      ensures forall a :: 0 <= a < |agents| ==> names[a] == agents[a].name
    {
      seq(|agents|, a requires 0 <= a < |agents| => agents[a].name)
    }

    /** The sweep schedule of a kickoff with this team's strategy and pattern, `eval_rate` and `total` turns. */
    function Plan(evalRate: int, total: nat): Schedule
    {
      Schedule(strategy == "belief", |pattern|, |pattern| * evalRate, total)
    }

    /**
      One belief sweep (team.py:258-260): every agent, in team order,
      re-assesses its beliefs on the discussion, and its new beliefs are stored
      under `key` in its entry of `changes`.
     */
    method Sweep(discussion: seq<string>, key: string, judge: EvalQuery -> string, parse: string -> Option<int>,
                 changes: map<string, map<string, seq<Belief>>>)
      returns (changes': map<string, map<string, seq<Belief>>>)
      requires Distinct(Names())
      requires forall a :: 0 <= a < |agents| ==> agents[a].name in changes
      modifies agents
      ensures forall a :: 0 <= a < |agents| ==>
        agents[a].beliefs == Reassessed(agents[a].name, agents[a].persona, Join("\n", discussion), judge, parse,
                                        old(agents[a].beliefs), 0)
      ensures changes'.Keys == changes.Keys
      ensures forall a :: 0 <= a < |agents| ==>
        changes'[agents[a].name] == changes[agents[a].name][key := agents[a].beliefs]
      ensures forall n :: n in changes && n !in Names() ==> changes'[n] == changes[n]
    {
      changes' := changes;
      var i := 0;
      while i < |agents|
        invariant 0 <= i <= |agents|
        invariant changes'.Keys == changes.Keys
        invariant forall a :: 0 <= a < i ==>
          agents[a].beliefs == Reassessed(agents[a].name, agents[a].persona, Join("\n", discussion), judge, parse,
                                          old(agents[a].beliefs), 0)
        invariant forall a :: i <= a < |agents| ==> agents[a].beliefs == old(agents[a].beliefs)
        invariant forall a :: 0 <= a < i ==> changes'[agents[a].name] == changes[agents[a].name][key := agents[a].beliefs]
        invariant forall a :: i <= a < |agents| ==> changes'[agents[a].name] == changes[agents[a].name]
        invariant forall n :: n in changes && n !in Names() ==> changes'[n] == changes[n]
      {
        var agent := agents[i];
        assert forall a :: 0 <= a < |agents| && a != i ==> agents[a] != agent && agents[a].name != agent.name;
        var _ := agent.Eval(discussion, judge, parse);
        changes' := changes'[agent.name := changes'[agent.name][key := agent.beliefs]];
        i := i + 1;
      }
    }

    /**
      The agents' beliefs and the belief snapshots are those the
      specification gives after the turns of `discussion`, starting from the
      beliefs `initial`.
     */
    predicate BeliefsFollow(s: Schedule, initial: seq<seq<Belief>>, judge: EvalQuery -> string, parse: string -> Option<int>,
                            discussion: seq<string>, beliefChanges: map<string, map<string, seq<Belief>>>)
      requires ValidSchedule(s) && |discussion| <= s.total && |initial| == |agents|
      reads agents
    {
      && beliefChanges.Keys == (set a | 0 <= a < |agents| :: agents[a].name)
      && (forall a :: 0 <= a < |agents| ==>
            agents[a].beliefs == BeliefsAfter(s, agents[a].name, agents[a].persona, initial[a], judge, parse, discussion))
      && (forall a :: 0 <= a < |agents| ==>
            beliefChanges[agents[a].name] == Changes(s, agents[a].name, agents[a].persona, initial[a], judge, parse, discussion))
    }

    /**
      The logs before any turn (team.py:217-229): an empty response list and an
      empty message list per agent, and the "Initial" snapshot of its beliefs.
     */
    method StartLogs() returns (agentLog: seq<Entry>, messageLog: map<string, seq<Message>>,
                                beliefChanges: map<string, map<string, seq<Belief>>>)
      requires Distinct(Names())
      ensures agentLog == AgentLog(Names(), [])
      ensures messageLog.Keys == (set a | 0 <= a < |agents| :: agents[a].name)
      ensures forall n :: n in messageLog ==> messageLog[n] == []
      ensures beliefChanges.Keys == (set a | 0 <= a < |agents| :: agents[a].name)
      ensures forall a :: 0 <= a < |agents| ==> beliefChanges[agents[a].name] == map["Initial" := agents[a].beliefs]
    {
      agentLog, messageLog := [], map[];
      var i := 0;
      while i < |agents|
        invariant 0 <= i <= |agents|
        invariant |agentLog| == i
        invariant forall a :: 0 <= a < i ==> agentLog[a] == Entry(agents[a].name, [])
        invariant messageLog.Keys == (set a | 0 <= a < i :: agents[a].name)
        invariant forall n :: n in messageLog ==> messageLog[n] == []
      {
        agentLog := agentLog + [Entry(agents[i].name, [])];
        messageLog := messageLog[agents[i].name := []];
        i := i + 1;
      }
      beliefChanges := map[];
      i := 0;
      while i < |agents|
        invariant 0 <= i <= |agents|
        invariant beliefChanges.Keys == (set a | 0 <= a < i :: agents[a].name)
        invariant forall a :: 0 <= a < i ==> beliefChanges[agents[a].name] == map["Initial" := agents[a].beliefs]
      {
        beliefChanges := beliefChanges[agents[i].name := map["Initial" := agents[i].beliefs]];
        i := i + 1;
      }
    }

    /** Before any turn the beliefs are the initial ones and only their "Initial" snapshot is stored. */
    lemma {:induction false} FollowAtStart(s: Schedule, initial: seq<seq<Belief>>, judge: EvalQuery -> string,
                                           parse: string -> Option<int>, beliefChanges: map<string, map<string, seq<Belief>>>)
      requires ValidSchedule(s) && |initial| == |agents|
      requires forall a :: 0 <= a < |agents| ==> initial[a] == agents[a].beliefs
      requires beliefChanges.Keys == (set a | 0 <= a < |agents| :: agents[a].name)
      requires forall a :: 0 <= a < |agents| ==> beliefChanges[agents[a].name] == map["Initial" := agents[a].beliefs]
      ensures BeliefsFollow(s, initial, judge, parse, [], beliefChanges)
    {
    }

    /**
      The sweep check of team.py:256-260 after turn `turn`: a sweep when the
      strategy is "belief" and the turn is a checkpoint or the last one.
     */
    method SweepIfDue(evalRate: int, total: nat, ghost initial: seq<seq<Belief>>, judge: EvalQuery -> string,
                      parse: string -> Option<int>, turn: nat, discussion: seq<string>,
                      beliefChanges: map<string, map<string, seq<Belief>>>)
      returns (beliefChanges': map<string, map<string, seq<Belief>>>)
      requires Distinct(Names()) && |pattern| > 0 && turn < total && |discussion| == turn + 1
      requires ValidSchedule(Plan(evalRate, total)) && |initial| == |agents|
      requires BeliefsFollow(Plan(evalRate, total), initial, judge, parse,
                             discussion[..turn], beliefChanges)
      modifies agents
      ensures BeliefsFollow(Plan(evalRate, total), initial, judge, parse,
                            discussion, beliefChanges')
    {
      ghost var s := Plan(evalRate, total);
      beliefChanges' := beliefChanges;
      if strategy == "belief" {
        DividesMod(|pattern| * evalRate, turn + 1);
        if (turn + 1) % (|pattern| * evalRate) == 0 || turn + 1 == total {
          beliefChanges' := Sweep(discussion, RoundKey(turn, |pattern|), judge, parse, beliefChanges);
        }
      }
      assert discussion[..|discussion| - 1] == discussion[..turn];
    }

    /**
      The state of `kickoff` after `turn` turns of `order`: the ghost
      transcript is the specification's, the discussion, the response log and
      `discussion_dict` are those of that transcript, and the beliefs and their
      snapshots follow the sweep schedule.
     */
    predicate Progress(systemText: string, taskPrompt: string, order: seq<nat>, evalRate: int, initial: seq<seq<Belief>>,
                       complete: (nat, seq<Message>) -> Completion, judge: EvalQuery -> string, parse: string -> Option<int>,
                       turn: nat, turns: seq<Turn>, discussion: seq<string>, agentLog: seq<Entry>,
                       discussionDict: map<string, map<string, Output>>, beliefChanges: map<string, map<string, seq<Belief>>>)
      reads agents
    {
      && Distinct(Names()) && Speakers(Names(), order) && turn <= |order| && (|order| > 0 ==> |pattern| > 0)
      && ValidSchedule(Plan(evalRate, |order|)) && |initial| == |agents|
      && turns == Transcript(Names(), order, systemText, taskPrompt, complete, turn)
      && discussion == Responses(turns) && agentLog == AgentLog(Names(), turns)
      && discussionDict == Record(|pattern|, turns)
      && BeliefsFollow(Plan(evalRate, |order|), initial, judge, parse, discussion, beliefChanges)
    }

    /**
      One turn of the loop of team.py:232-260: the state after `turn` turns
      becomes the state after `turn + 1` turns.
     */
    method TakeTurn(systemText: string, taskPrompt: string, order: seq<nat>, evalRate: int, ghost initial: seq<seq<Belief>>,
                    complete: (nat, seq<Message>) -> Completion, judge: EvalQuery -> string, parse: string -> Option<int>,
                    turn: nat, ghost turns: seq<Turn>, discussion: seq<string>, agentLog: seq<Entry>,
                    messageLog: map<string, seq<Message>>, discussionDict: map<string, map<string, Output>>,
                    beliefChanges: map<string, map<string, seq<Belief>>>)
      returns (ghost turns': seq<Turn>, discussion': seq<string>, agentLog': seq<Entry>,
               messageLog': map<string, seq<Message>>, discussionDict': map<string, map<string, Output>>,
               beliefChanges': map<string, map<string, seq<Belief>>>)
      requires turn < |order|
      requires Progress(systemText, taskPrompt, order, evalRate, initial, complete, judge, parse,
                        turn, turns, discussion, agentLog, discussionDict, beliefChanges)
      modifies agents
      ensures Progress(systemText, taskPrompt, order, evalRate, initial, complete, judge, parse,
                       turn + 1, turns', discussion', agentLog', discussionDict', beliefChanges')
    {
      var speaker := order[turn];
      var agent := agents[speaker];
      var response, tokens;
      response, tokens, messageLog' := agent.Respond(systemText, taskPrompt, agentLog, messageLog, speaker, turn, complete);
      ghost var reply := complete(turn, View(systemText, taskPrompt, agentLog, speaker));
      ghost var x := Turn(speaker, agent.name, reply.text, reply.tokens);

      agentLog' := agentLog[speaker := Entry(agentLog[speaker].name, agentLog[speaker].said + [response])];
      discussion' := discussion + [response];
      AgentLogStep(Names(), turns, x);
      ResponsesStep(turns, x);
      turns' := turns + [x];
      discussionDict' := RecordTurn(discussionDict, |pattern|, turns, x, turn, agent.name, response, tokens);
      assert discussion'[..turn] == discussion;
      beliefChanges' := SweepIfDue(evalRate, |order|, initial, judge, parse, turn, discussion', beliefChanges);
      TranscriptNext(Names(), order, systemText, taskPrompt, complete, turn);
      assert turns' == Transcript(Names(), order, systemText, taskPrompt, complete, turn + 1);
    }

    /**
      `kickoff` (team.py:206-262). Turn `t` of the order lets agent
      `order[t]` respond to the view of the response log; the response goes to
      its log, to the discussion and, cleaned, to `discussion_dict` under the
      key of round `t // |pattern| + 1`. Under the "belief" strategy every
      agent re-assesses its beliefs at the sweep turns, and the snapshot goes
      to `belief_changes` under the same round key. The results are those of
      the specification functions on the transcript of all turns.
     */
    method Kickoff(systemText: string, taskPrompt: string, rounds: int, evalRate: int,
                   complete: (nat, seq<Message>) -> Completion, judge: EvalQuery -> string, parse: string -> Option<int>)
      returns (discussionDict: map<string, map<string, Output>>, beliefChanges: map<string, map<string, seq<Belief>>>)
      requires Distinct(Names())
      requires forall k :: 0 <= k < |pattern| ==> pattern[k] < |agents|
      requires strategy == "belief" && |pattern| > 0 && rounds > 0 ==> evalRate != 0
      modifies agents
      ensures var order := GenerateCustomOrder(pattern, rounds);
        && Speakers(Names(), order) && ValidSchedule(Plan(evalRate, |order|))
        && var turns := Transcript(Names(), order, systemText, taskPrompt, complete, |order|);
        && discussionDict == Record(|pattern|, turns)
        && beliefChanges.Keys == (set a | 0 <= a < |agents| :: agents[a].name)
        && (forall a :: 0 <= a < |agents| ==>
              agents[a].beliefs
                == BeliefsAfter(Plan(evalRate, |order|), agents[a].name, agents[a].persona, old(agents[a].beliefs),
                                judge, parse, Responses(turns)))
        && (forall a :: 0 <= a < |agents| ==>
              beliefChanges[agents[a].name]
                == Changes(Plan(evalRate, |order|), agents[a].name, agents[a].persona, old(agents[a].beliefs),
                           judge, parse, Responses(turns)))
    {
      var order := GenerateCustomOrder(pattern, rounds);
      CustomOrderSpec(pattern, rounds);
      if strategy == "belief" && |order| > 0 {
        MulNonZero(|pattern|, evalRate);
      }
      discussionDict, beliefChanges := RunTurns(systemText, taskPrompt, order, evalRate, complete, judge, parse);
    }

    /** The turn loop of `kickoff` (team.py:217-260) over a given speaking order. */
    method RunTurns(systemText: string, taskPrompt: string, order: seq<nat>, evalRate: int,
                    complete: (nat, seq<Message>) -> Completion, judge: EvalQuery -> string, parse: string -> Option<int>)
      returns (discussionDict: map<string, map<string, Output>>, beliefChanges: map<string, map<string, seq<Belief>>>)
      requires Distinct(Names()) && Speakers(Names(), order) && (|order| > 0 ==> |pattern| > 0)
      requires ValidSchedule(Plan(evalRate, |order|))
      modifies agents
      ensures var turns := Transcript(Names(), order, systemText, taskPrompt, complete, |order|);
        && discussionDict == Record(|pattern|, turns)
        && beliefChanges.Keys == (set a | 0 <= a < |agents| :: agents[a].name)
        && (forall a :: 0 <= a < |agents| ==>
              agents[a].beliefs
                == BeliefsAfter(Plan(evalRate, |order|), agents[a].name, agents[a].persona, old(agents[a].beliefs),
                                judge, parse, Responses(turns)))
        && (forall a :: 0 <= a < |agents| ==>
              beliefChanges[agents[a].name]
                == Changes(Plan(evalRate, |order|), agents[a].name, agents[a].persona, old(agents[a].beliefs),
                           judge, parse, Responses(turns)))
    {
      ghost var initial := seq(|agents|, a requires 0 <= a < |agents| reads agents => agents[a].beliefs);
      var agentLog, messageLog;
      agentLog, messageLog, beliefChanges := StartLogs();
      FollowAtStart(Plan(evalRate, |order|), initial, judge, parse, beliefChanges);
      var discussion: seq<string> := [];
      ghost var turns: seq<Turn> := [];
      discussionDict := map[];
      var turn := 0;
      while turn < |order|
        invariant forall a :: 0 <= a < |agents| ==> initial[a] == old(agents[a].beliefs)
        invariant Progress(systemText, taskPrompt, order, evalRate, initial, complete, judge, parse,
                           turn, turns, discussion, agentLog, discussionDict, beliefChanges)
      {
        turns, discussion, agentLog, messageLog, discussionDict, beliefChanges :=
          TakeTurn(systemText, taskPrompt, order, evalRate, initial, complete, judge, parse,
                   turn, turns, discussion, agentLog, messageLog, discussionDict, beliefChanges);
        turn := turn + 1;
      }
    }
  }
}
