/**
  The message list an agent sees on its turn (the assembly part of
  `Agent.respond` in mad_framework/team.py).

  The per-agent response log is a sequence of entries in team order: each
  agent's name and its responses so far, in turn order. It stands for the
  source's dictionary from agent name to responses, so names are distinct, and
  the agent whose view is built is identified by its position `self`. From the
  log the builder replays past rounds, batching other agents' responses into
  user messages and the agent's own responses into assistant messages, then
  appends what arrived in the current round together with the task prompt.

  `View` is the specification: it is stated round by round, with the content
  of each user message named by the batch of responses it carries.
  `BuildMessages` is the nested loop of the source, proved to produce `View`.
 */
module Messages {
  import opened Text

  datatype Role = System | User | Assistant

  datatype Message = Message(role: Role, content: string)

  /** One entry of the response log: an agent's name and its responses so far. */
  datatype Entry = Entry(name: string, said: seq<string>)

  /** The separator written before the task prompt. */
  const Separator: string := "###\n\n"

  /** The log is keyed by name, as the source's dictionary is. */
  predicate DistinctNames(log: seq<Entry>)
  {
    forall i, j :: 0 <= i < j < |log| ==> log[i].name != log[j].name
  }

  /** `agent_log[self.name]`: the responses the agent itself has produced. */
  function Own(log: seq<Entry>, self: nat): seq<string>
    requires self < |log|
  {
    log[self].said
  }

  /** The dictionary lookup `agent_log[name]`, on the log's entries. */
  function SaidBy(log: seq<Entry>, name: string): seq<string>
    decreases |log|
  {
    if |log| == 0 then []
    else if log[0].name == name then log[0].said
    else SaidBy(log[1..], name)
  }

  /** Looking up the name at position `self` finds that entry's responses. */
  lemma {:induction false} SaidByFinds(log: seq<Entry>, name: string, self: nat)
    requires self < |log| && log[self].name == name && DistinctNames(log)
    ensures SaidBy(log, name) == Own(log, self)
    decreases |log|
  {
    if self > 0 {
      assert log[0].name != name;
      SaidByFinds(log[1..], name, self - 1);
    }
  }

  function SystemPrompt(name: string, systemText: string): string
  {
    "You are " + name + ". " + systemText
  }

  /**
    The assistant message for one of the agent's own responses:
    `lstrip(f"{name}: ")` removes every leading character that occurs in
    `name + ": "`, not that prefix.
   */
  function AssistantText(response: string, name: string): string
  {
    LStrip(response, name + ": ")
  }

  /**
    Round `r` responses of the OTHER agents among log entries `lo .. hi-1`,
    in team order; an agent that has not reached round `r` contributes nothing.
   */
  function Heard(log: seq<Entry>, self: nat, r: nat, lo: nat, hi: nat): seq<string>
    requires lo <= hi <= |log|
    decreases hi
  {
    if hi == lo then []
    else
      Heard(log, self, r, lo, hi - 1)
      + (if hi - 1 != self && |log[hi - 1].said| > r then [log[hi - 1].said[r]] else [])
  }

  /**
    Responses carried into round `r` from the previous one: those of the
    agents after the current agent in team order.
   */
  function Carry(log: seq<Entry>, self: nat, r: nat): seq<string>
    requires self < |log|
  {
    if r == 0 then [] else Heard(log, self, r - 1, self + 1, |log|)
  }

  /** The batch flushed into a user message just before the agent's own round-`r` response. */
  function Batch(log: seq<Entry>, self: nat, r: nat): seq<string>
    requires self < |log|
  {
    Carry(log, self, r) + Heard(log, self, r, 0, self)
  }

  /** The opening: the system message, and the task prompt when the name contains '1'. */
  function Head(systemText: string, name: string, taskPrompt: string): seq<Message>
  {
    [Message(System, SystemPrompt(name, systemText))]
    + (if '1' in name then [Message(User, taskPrompt)] else [])
  }

  function Last(msgs: seq<Message>): Message
    requires |msgs| > 0
  {
    msgs[|msgs| - 1]
  }

  /** Replace the content of the last message, keeping its role. */
  function EditLast(msgs: seq<Message>, content: string): seq<Message>
    requires |msgs| > 0
  {
    msgs[|msgs| - 1 := Message(Last(msgs).role, content)]
  }

  /** Put a batch in front of one of the agent's own responses (team.py:76-83). */
  function Flush(msgs: seq<Message>, batch: seq<string>, taskPrompt: string): seq<Message>
    requires |msgs| > 0
  {
    if batch == [] then msgs
    else if Last(msgs).role == User then
      EditLast(msgs, Last(msgs).content + "\n" + Join("\n", batch) + "\n\n" + Separator + taskPrompt)
    else msgs + [Message(User, Join("\n", batch) + Separator + taskPrompt)]
  }

  /** The messages after replaying the first `r` rounds of the agent's own responses. */
  function Replay(systemText: string, taskPrompt: string, log: seq<Entry>, self: nat, r: nat): (msgs: seq<Message>)
    requires self < |log| && r <= |Own(log, self)|
    ensures |msgs| > 0
    decreases r
  {
    if r == 0 then Head(systemText, log[self].name, taskPrompt)
    else
      var before := Flush(Replay(systemText, taskPrompt, log, self, r - 1), Batch(log, self, r - 1), taskPrompt);
      before + [Message(Assistant, AssistantText(Own(log, self)[r - 1], log[self].name))]
  }

  lemma {:induction false} ReplayStep(systemText: string, taskPrompt: string, log: seq<Entry>, self: nat, r: nat)
    requires self < |log| && r < |Own(log, self)|
    ensures Replay(systemText, taskPrompt, log, self, r + 1)
         == Flush(Replay(systemText, taskPrompt, log, self, r), Batch(log, self, r), taskPrompt)
            + [Message(Assistant, AssistantText(Own(log, self)[r], log[self].name))]
  {
  }

  /** After the replay: responses left over from the last replayed round (team.py:89-94). */
  function FlushTrailing(msgs: seq<Message>, trailing: seq<string>, taskPrompt: string): seq<Message>
    requires |msgs| > 0
  {
    if trailing == [] then msgs
    else if Last(msgs).role == User then
      EditLast(msgs, Last(msgs).content + "\n" + Join("\n", trailing) + "\n\n" + Separator + taskPrompt)
    else msgs + [Message(User, Join("\n", trailing))]
  }

  /** The current round's responses and the task prompt (team.py:96-112). */
  function Conclude(msgs: seq<Message>, arrived: seq<string>, taskPrompt: string): seq<Message>
    requires |msgs| > 0
  {
    if arrived != [] then
      if Last(msgs).role == Assistant || Last(msgs).role == System then
        msgs + [Message(User, Join("\n", arrived) + "\n\n" + Separator + taskPrompt)]
      else
        EditLast(msgs, Last(msgs).content + "\n" + Join("\n", arrived) + "\n" + Separator + taskPrompt)
    else if Last(msgs).role == User && |msgs| != 2 then
      EditLast(msgs, Last(msgs).content + "\n" + Separator + taskPrompt)
    else msgs
  }

  /** The message list `respond` sends for the agent at position `self` (team.py:57-114). */
  function View(systemText: string, taskPrompt: string, log: seq<Entry>, self: nat): seq<Message>
    requires self < |log|
  {
    var rounds := |Own(log, self)|;
    var replayed := Replay(systemText, taskPrompt, log, self, rounds);
    Conclude(FlushTrailing(replayed, Carry(log, self, rounds), taskPrompt),
             Heard(log, self, rounds, 0, |log|), taskPrompt)
  }

  // ----- What the view is made of -----

  /** The contents of the assistant messages, in order. */
  function Assistants(msgs: seq<Message>): seq<string>
    decreases |msgs|
  {
    if |msgs| == 0 then []
    else Assistants(msgs[..|msgs| - 1]) + (if Last(msgs).role == Assistant then [Last(msgs).content] else [])
  }

  /** The assistant message text of each of the given responses. */
  function AssistantTexts(responses: seq<string>, name: string): (r: seq<string>)
    ensures |r| == |responses|
    ensures forall i :: 0 <= i < |r| ==> r[i] == AssistantText(responses[i], name)
  {
    seq(|responses|, i requires 0 <= i < |responses| => AssistantText(responses[i], name))
  }

  /** Same-role user content is always coalesced: no user message follows another. */
  predicate NoAdjacentUsers(msgs: seq<Message>)
    decreases |msgs|
  {
    || |msgs| < 2
    || (&& !(msgs[|msgs| - 2].role == User && msgs[|msgs| - 1].role == User)
        && NoAdjacentUsers(msgs[..|msgs| - 1]))
  }

  /** A long message: more than the task prompt alone. */
  predicate LongUser(x: Message, taskPrompt: string)
  {
    x.role == User && |x.content| > |taskPrompt|
  }

  /** `s` begins with `p`, stated character by character. */
  predicate Begins(s: string, p: string)
    decreases |p|
  {
    |p| <= |s| && (|p| == 0 || (s[0] == p[0] && Begins(s[1..], p[1..])))
  }

  lemma {:induction false} BeginsSelf(p: string)
    ensures Begins(p, p)
    decreases |p|
  {
    if |p| > 0 {
      BeginsSelf(p[1..]);
    }
  }

  lemma {:induction false} BeginsAppend(s: string, x: string, p: string)
    requires Begins(s, p)
    ensures Begins(s + x, p)
    decreases |p|
  {
    if |p| > 0 {
      assert (s + x)[1..] == s[1..] + x;
      BeginsAppend(s[1..], x, p[1..]);
    }
  }

  lemma {:induction false} BeginsTrans(s: string, q: string, p: string)
    requires Begins(s, q) && Begins(q, p)
    ensures Begins(s, p)
    decreases |p|
  {
    if |p| > 0 {
      BeginsTrans(s[1..], q[1..], p[1..]);
    }
  }

  /** The contents the builder gives an edited last message: the old text, then more. */
  lemma {:induction false} ExtendedContent(prior: string, a: string, b: string, c: string, d: string, e: string)
    ensures Begins(prior + a + b + c + d + e, prior) && Begins(prior + a + b + c, prior)
  {
    BeginsSelf(prior);
    BeginsAppend(prior, a, prior);
    BeginsAppend(prior + a, b, prior);
    BeginsAppend(prior + a + b, c, prior);
    BeginsAppend(prior + a + b + c, d, prior);
    BeginsAppend(prior + a + b + c + d, e, prior);
  }

  lemma {:induction false} BeginsPrefix(s: string, p: string)
    requires Begins(s, p)
    ensures p <= s
    decreases |p|
  {
    if |p| > 0 {
      BeginsPrefix(s[1..], p[1..]);
      assert s == [s[0]] + s[1..] && p == [p[0]] + p[1..];
    }
  }

  /**
    The shape every message list of the builder keeps: it opens with the
    system message, no user message follows another, and message 1 is the task
    prompt (possibly with more text after it) when the name contains '1', and
    otherwise, when present, an assistant message or a user message with more
    than the task prompt in it.
   */
  predicate Shaped(m: seq<Message>, opening: Message, one: bool, taskPrompt: string)
  {
    && |m| > 0 && m[0] == opening && opening.role == System && NoAdjacentUsers(m)
    && (if one then |m| >= 2 && m[1].role == User && Begins(m[1].content, taskPrompt)
        else |m| < 2 || m[1].role == Assistant || LongUser(m[1], taskPrompt))
  }

  /** Adding text at the end of a last user message keeps the shape. */
  lemma {:induction false} EditLastUser(m: seq<Message>, c: string, opening: Message, one: bool, taskPrompt: string)
    requires |m| > 0 && Last(m).role == User && Begins(c, Last(m).content)
    ensures Assistants(EditLast(m, c)) == Assistants(m)
    ensures Shaped(m, opening, one, taskPrompt) ==> Shaped(EditLast(m, c), opening, one, taskPrompt)
  {
    var m' := EditLast(m, c);
    assert m'[..|m| - 1] == m[..|m| - 1];
    assert Last(m').role == User;
    if |m| >= 2 {
      assert m'[|m| - 2] == m[|m| - 2];
    }
    if |m| == 2 && one && Shaped(m, opening, one, taskPrompt) {
      BeginsTrans(c, m[1].content, taskPrompt);
    }
  }

  /** Appending a message keeps the shape when it does not put two user messages together. */
  lemma {:induction false} AppendMessage(m: seq<Message>, x: Message, opening: Message, one: bool, taskPrompt: string)
    requires |m| > 0
    ensures Assistants(m + [x]) == Assistants(m) + (if x.role == Assistant then [x.content] else [])
    ensures && Shaped(m, opening, one, taskPrompt) && !(Last(m).role == User && x.role == User)
            && (|m| == 1 && !one ==> x.role == Assistant || LongUser(x, taskPrompt))
            ==> Shaped(m + [x], opening, one, taskPrompt)
  {
    assert (m + [x])[..|m|] == m;
  }

  lemma {:induction false} FlushFacts(m: seq<Message>, batch: seq<string>, taskPrompt: string, opening: Message, one: bool)
    requires |m| > 0
    ensures Assistants(Flush(m, batch, taskPrompt)) == Assistants(m)
    ensures Shaped(m, opening, one, taskPrompt) ==> Shaped(Flush(m, batch, taskPrompt), opening, one, taskPrompt)
  {
    if batch == [] {
    } else if Last(m).role == User {
      ExtendedContent(Last(m).content, "\n", Join("\n", batch), "\n\n", Separator, taskPrompt);
      EditLastUser(m, Last(m).content + "\n" + Join("\n", batch) + "\n\n" + Separator + taskPrompt, opening, one, taskPrompt);
    } else {
      AppendMessage(m, Message(User, Join("\n", batch) + Separator + taskPrompt), opening, one, taskPrompt);
    }
  }

  lemma {:induction false} FlushTrailingFacts(m: seq<Message>, trailing: seq<string>, taskPrompt: string, opening: Message, one: bool)
    requires |m| > 0
    ensures Assistants(FlushTrailing(m, trailing, taskPrompt)) == Assistants(m)
    ensures Shaped(m, opening, one, taskPrompt) && (trailing == [] || |m| >= 2)
            ==> Shaped(FlushTrailing(m, trailing, taskPrompt), opening, one, taskPrompt)
  {
    if trailing == [] {
    } else if Last(m).role == User {
      ExtendedContent(Last(m).content, "\n", Join("\n", trailing), "\n\n", Separator, taskPrompt);
      EditLastUser(m, Last(m).content + "\n" + Join("\n", trailing) + "\n\n" + Separator + taskPrompt, opening, one, taskPrompt);
    } else {
      AppendMessage(m, Message(User, Join("\n", trailing)), opening, one, taskPrompt);
    }
  }

  lemma {:induction false} ConcludeFacts(m: seq<Message>, arrived: seq<string>, taskPrompt: string, opening: Message, one: bool)
    requires |m| > 0
    ensures Assistants(Conclude(m, arrived, taskPrompt)) == Assistants(m)
    ensures Shaped(m, opening, one, taskPrompt) ==> Shaped(Conclude(m, arrived, taskPrompt), opening, one, taskPrompt)
  {
    if arrived != [] {
      if Last(m).role == Assistant || Last(m).role == System {
        AppendMessage(m, Message(User, Join("\n", arrived) + "\n\n" + Separator + taskPrompt), opening, one, taskPrompt);
      } else {
        ExtendedContent(Last(m).content, "\n", Join("\n", arrived), "\n", Separator, taskPrompt);
        EditLastUser(m, Last(m).content + "\n" + Join("\n", arrived) + "\n" + Separator + taskPrompt, opening, one, taskPrompt);
      }
    } else if Last(m).role == User && |m| != 2 {
      ExtendedContent(Last(m).content, "\n", Separator, taskPrompt, "", "");
      EditLastUser(m, Last(m).content + "\n" + Separator + taskPrompt, opening, one, taskPrompt);
    }
  }

  lemma {:induction false} HeadFacts(systemText: string, name: string, taskPrompt: string)
    ensures Shaped(Head(systemText, name, taskPrompt), Message(System, SystemPrompt(name, systemText)), '1' in name, taskPrompt)
    ensures Assistants(Head(systemText, name, taskPrompt)) == []
  {
    var head := Head(systemText, name, taskPrompt);
    assert head[..0] == [];
    if '1' in name {
      BeginsSelf(taskPrompt);
      assert head[..1] == [head[0]];
      assert [head[0]][..0] == [];
      assert Assistants(head[..1]) == [];
    }
  }

  /** One replayed round, on message lists: flush the batch, then add the agent's own response. */
  lemma {:induction false} RoundStep(prev: seq<Message>, batch: seq<string>, taskPrompt: string, opening: Message, one: bool,
                  x: Message, next: seq<Message>, before: seq<string>)
    requires Shaped(prev, opening, one, taskPrompt) && Assistants(prev) == before
    requires x.role == Assistant && next == Flush(prev, batch, taskPrompt) + [x]
    ensures Shaped(next, opening, one, taskPrompt) && |next| >= 2
    ensures Assistants(next) == before + [x.content]
  {
    var flushed := Flush(prev, batch, taskPrompt);
    FlushFacts(prev, batch, taskPrompt, opening, one);
    AppendMessage(flushed, x, opening, one, taskPrompt);
  }

  lemma {:induction false} AssistantTextsSnoc(responses: seq<string>, name: string, r: nat)
    requires 0 < r <= |responses|
    ensures AssistantTexts(responses[..r], name)
         == AssistantTexts(responses[..r - 1], name) + [AssistantText(responses[r - 1], name)]
  {
  }

  lemma {:induction false} ReplayFacts(systemText: string, taskPrompt: string, log: seq<Entry>, self: nat, r: nat)
    requires self < |log| && r <= |Own(log, self)|
    ensures Shaped(Replay(systemText, taskPrompt, log, self, r),
                   Message(System, SystemPrompt(log[self].name, systemText)), '1' in log[self].name, taskPrompt)
    ensures Assistants(Replay(systemText, taskPrompt, log, self, r)) == AssistantTexts(Own(log, self)[..r], log[self].name)
    ensures r > 0 ==> |Replay(systemText, taskPrompt, log, self, r)| >= 2
    decreases r
  {
    var name := log[self].name;
    HeadFacts(systemText, name, taskPrompt);
    if r > 0 {
      ReplayFacts(systemText, taskPrompt, log, self, r - 1);
      ReplayStep(systemText, taskPrompt, log, self, r - 1);
      AssistantTextsSnoc(Own(log, self), name, r);
      RoundStep(Replay(systemText, taskPrompt, log, self, r - 1), Batch(log, self, r - 1), taskPrompt,
        Message(System, SystemPrompt(name, systemText)), '1' in name,
        Message(Assistant, AssistantText(Own(log, self)[r - 1], name)),
        Replay(systemText, taskPrompt, log, self, r),
        AssistantTexts(Own(log, self)[..r - 1], name));
    }
  }

  /** The two closing steps, on message lists. */
  lemma {:induction false} CloseStep(replayed: seq<Message>, trailing: seq<string>, arrived: seq<string>, taskPrompt: string,
                  opening: Message, one: bool, v: seq<Message>)
    requires Shaped(replayed, opening, one, taskPrompt) && (trailing == [] || |replayed| >= 2)
    requires v == Conclude(FlushTrailing(replayed, trailing, taskPrompt), arrived, taskPrompt)
    ensures Shaped(v, opening, one, taskPrompt) && Assistants(v) == Assistants(replayed)
  {
    var trailed := FlushTrailing(replayed, trailing, taskPrompt);
    FlushTrailingFacts(replayed, trailing, taskPrompt, opening, one);
    ConcludeFacts(trailed, arrived, taskPrompt, opening, one);
  }

  lemma {:induction false} ViewFacts(systemText: string, taskPrompt: string, log: seq<Entry>, self: nat)
    requires self < |log|
    ensures Shaped(View(systemText, taskPrompt, log, self),
                   Message(System, SystemPrompt(log[self].name, systemText)), '1' in log[self].name, taskPrompt)
    ensures Assistants(View(systemText, taskPrompt, log, self)) == AssistantTexts(Own(log, self), log[self].name)
  {
    var rounds := |Own(log, self)|;
    ReplayFacts(systemText, taskPrompt, log, self, rounds);
    CloseStep(Replay(systemText, taskPrompt, log, self, rounds), Carry(log, self, rounds),
      Heard(log, self, rounds, 0, |log|), taskPrompt,
      Message(System, SystemPrompt(log[self].name, systemText)), '1' in log[self].name,
      View(systemText, taskPrompt, log, self));
    assert Own(log, self)[..rounds] == Own(log, self);
  }

  // ----- Properties of the view -----

  /** Message 0 is always the system message naming the agent. */
  lemma {:induction false} ViewOpensWithSystem(systemText: string, taskPrompt: string, log: seq<Entry>, self: nat)
    requires self < |log|
    ensures |View(systemText, taskPrompt, log, self)| > 0
    ensures View(systemText, taskPrompt, log, self)[0] == Message(System, "You are " + log[self].name + ". " + systemText)
  {
    ViewFacts(systemText, taskPrompt, log, self);
  }

  /** An agent whose name contains '1' has, as message 1, a user message that starts with the task prompt. */
  lemma {:induction false} ViewTaskPromptFirst(systemText: string, taskPrompt: string, log: seq<Entry>, self: nat)
    requires self < |log| && '1' in log[self].name
    ensures |View(systemText, taskPrompt, log, self)| >= 2
    ensures View(systemText, taskPrompt, log, self)[1].role == User
    ensures taskPrompt <= View(systemText, taskPrompt, log, self)[1].content
  {
    ViewFacts(systemText, taskPrompt, log, self);
    BeginsPrefix(View(systemText, taskPrompt, log, self)[1].content, taskPrompt);
  }

  /** Only an agent whose name contains '1' ever gets the bare task prompt as message 1. */
  lemma {:induction false} ViewTaskPromptNeedsOne(systemText: string, taskPrompt: string, log: seq<Entry>, self: nat)
    requires self < |log|
    ensures |View(systemText, taskPrompt, log, self)| >= 2 && View(systemText, taskPrompt, log, self)[1] == Message(User, taskPrompt)
            ==> '1' in log[self].name
  {
    ViewFacts(systemText, taskPrompt, log, self);
  }

  /**
    On an empty log (nobody has spoken yet) the view is just the opening: the
    system message, followed by the task prompt when the name contains '1'
    and by nothing otherwise; the prompt is not added a second time.
   */
  lemma {:induction false} ViewOfEmptyLog(systemText: string, taskPrompt: string, log: seq<Entry>, self: nat)
    requires self < |log|
    requires forall j :: 0 <= j < |log| ==> log[j].said == []
    ensures View(systemText, taskPrompt, log, self)
         == [Message(System, SystemPrompt(log[self].name, systemText))]
            + (if '1' in log[self].name then [Message(User, taskPrompt)] else [])
  {
    HeardNothing(log, self, 0, 0, |log|);
  }

  lemma {:induction false} HeardNothing(log: seq<Entry>, self: nat, r: nat, lo: nat, hi: nat)
    requires lo <= hi <= |log|
    requires forall j :: lo <= j < hi ==> |log[j].said| <= r
    ensures Heard(log, self, r, lo, hi) == []
    decreases hi
  {
    if hi > lo {
      HeardNothing(log, self, r, lo, hi - 1);
    }
  }

  /**
    The assistant messages are exactly the agent's own responses, in round
    order, each with its leading characters from the set of `name + ": "` removed.
   */
  lemma {:induction false} ViewAssistantMessages(systemText: string, taskPrompt: string, log: seq<Entry>, self: nat)
    requires self < |log|
    ensures Assistants(View(systemText, taskPrompt, log, self)) == AssistantTexts(Own(log, self), log[self].name)
  {
    ViewFacts(systemText, taskPrompt, log, self);
  }

  /** No two user messages are adjacent: each batch is coalesced into a last user message. */
  lemma {:induction false} ViewNoAdjacentUsers(systemText: string, taskPrompt: string, log: seq<Entry>, self: nat)
    requires self < |log|
    ensures NoAdjacentUsers(View(systemText, taskPrompt, log, self))
  {
    ViewFacts(systemText, taskPrompt, log, self);
  }

  /** Every other agent's responses at rounds `0 .. n-1`: round-major, team order within a round. */
  function RoundMajor(log: seq<Entry>, self: nat, n: nat): seq<string>
    decreases n
  {
    if n == 0 then [] else RoundMajor(log, self, n - 1) + Heard(log, self, n - 1, 0, |log|)
  }

  /** The batches of replayed rounds `0 .. n-1`, one after the other. */
  function Gathered(log: seq<Entry>, self: nat, n: nat): seq<string>
    requires self < |log|
    decreases n
  {
    if n == 0 then [] else Gathered(log, self, n - 1) + Batch(log, self, n - 1)
  }

  lemma {:induction false} HeardSplit(log: seq<Entry>, self: nat, r: nat, lo: nat, mid: nat, hi: nat)
    requires lo <= mid <= hi <= |log|
    ensures Heard(log, self, r, lo, hi) == Heard(log, self, r, lo, mid) + Heard(log, self, r, mid, hi)
    decreases hi
  {
    if hi > mid {
      HeardSplit(log, self, r, lo, mid, hi - 1);
    }
  }

  /** Round `r` as heard by the agent: those before it in team order, then those after it. */
  lemma {:induction false} HeardAroundSelf(log: seq<Entry>, self: nat, r: nat)
    requires self < |log|
    ensures Heard(log, self, r, 0, |log|) == Heard(log, self, r, 0, self) + Heard(log, self, r, self + 1, |log|)
  {
    HeardSplit(log, self, r, 0, self, |log|);
    HeardSplit(log, self, r, self, self + 1, |log|);
    assert Heard(log, self, r, self, self + 1) == [];
  }

  lemma {:induction false} GatheredStep(log: seq<Entry>, self: nat, n: nat)
    requires self < |log| && n > 0
    ensures Gathered(log, self, n)
         == Gathered(log, self, n - 1) + (Carry(log, self, n - 1) + Heard(log, self, n - 1, 0, self))
    ensures Carry(log, self, n) == Heard(log, self, n - 1, self + 1, |log|)
    ensures RoundMajor(log, self, n)
         == RoundMajor(log, self, n - 1) + (Heard(log, self, n - 1, 0, self) + Heard(log, self, n - 1, self + 1, |log|))
  {
    HeardAroundSelf(log, self, n - 1);
  }

  lemma {:induction false} Regroup<T>(g: seq<T>, c: seq<T>, rm: seq<T>, pre: seq<T>, post: seq<T>, g': seq<T>, c': seq<T>, rm': seq<T>)
    requires g + c == rm && g' == g + (c + pre) && c' == post && rm' == rm + (pre + post)
    ensures g' + c' == rm'
  {
  }

  lemma {:induction false} GatheredCarry(log: seq<Entry>, self: nat, n: nat)
    requires self < |log|
    ensures Gathered(log, self, n) + Carry(log, self, n) == RoundMajor(log, self, n)
    decreases n
  {
    if n > 0 {
      GatheredCarry(log, self, n - 1);
      GatheredStep(log, self, n);
      Regroup(Gathered(log, self, n - 1), Carry(log, self, n - 1), RoundMajor(log, self, n - 1),
        Heard(log, self, n - 1, 0, self), Heard(log, self, n - 1, self + 1, |log|),
        Gathered(log, self, n), Carry(log, self, n), RoundMajor(log, self, n));
    }
  }

  /**
    The responses placed in user messages (the batch of each replayed round,
    then the trailing responses, then those that arrived in the current round)
    are exactly the other agents' responses at rounds `0 .. |own log|`, each
    once, round-major and in team order within a round; none from a later round.
   */
  lemma {:induction false} ViewCoversEachResponseOnce(log: seq<Entry>, self: nat)
    requires self < |log|
    ensures var rounds := |Own(log, self)|;
      Gathered(log, self, rounds) + Carry(log, self, rounds) + Heard(log, self, rounds, 0, |log|)
      == RoundMajor(log, self, rounds + 1)
  {
    GatheredCarry(log, self, |Own(log, self)|);
  }

  /** One pass of the inner loop of team.py:74-88: the agents of the log, in team order, for round `r`. */
  method ReplayRound(systemText: string, name: string, taskPrompt: string, log: seq<Entry>, ghost self: nat, r: nat,
                     messages: seq<Message>, userMsgs: seq<string>)
    returns (messages': seq<Message>, userMsgs': seq<string>)
    requires self < |log| && log[self].name == name && DistinctNames(log) && r < |Own(log, self)|
    requires |messages| > 0 && userMsgs == Carry(log, self, r)
    ensures messages' == Flush(messages, Batch(log, self, r), taskPrompt)
                         + [Message(Assistant, AssistantText(Own(log, self)[r], name))]
    ensures userMsgs' == Carry(log, self, r + 1)
  {
    messages', userMsgs' := messages, userMsgs;
    var j := 0;
    while j < |log|
      invariant 0 <= j <= |log|
      invariant j <= self ==> messages' == messages
      invariant j <= self ==> userMsgs' == Carry(log, self, r) + Heard(log, self, r, 0, j)
      invariant j > self ==> messages' == Flush(messages, Batch(log, self, r), taskPrompt)
                                          + [Message(Assistant, AssistantText(Own(log, self)[r], name))]
      invariant j > self ==> userMsgs' == Heard(log, self, r, self + 1, j)
    {
      var entry := log[j];
      if entry.name == name {
        assert j == self;
        if |userMsgs'| > 0 {
          if messages'[|messages'| - 1].role == User {
            messages' := messages'[|messages'| - 1 := Message(User,
              messages'[|messages'| - 1].content + "\n" + Join("\n", userMsgs') + "\n\n" + Separator + taskPrompt)];
          } else {
            messages' := messages' + [Message(User, Join("\n", userMsgs') + Separator + taskPrompt)];
          }
          userMsgs' := [];
        }
        assert messages' == Flush(messages, Batch(log, self, r), taskPrompt);
        var assistantMsg := AssistantText(entry.said[r], name);
        messages' := messages' + [Message(Assistant, assistantMsg)];
      } else if |entry.said| > r {
        assert j != self;
        userMsgs' := userMsgs' + [entry.said[r]];
      }
      j := j + 1;
    }
  }

  /** The responses of round `r` from every other agent, in team order (team.py:96-99). */
  method GatherRound(name: string, log: seq<Entry>, ghost self: nat, r: nat) returns (prompts: seq<string>)
    requires self < |log| && log[self].name == name && DistinctNames(log)
    ensures prompts == Heard(log, self, r, 0, |log|)
  {
    prompts := [];
    var j := 0;
    while j < |log|
      invariant 0 <= j <= |log|
      invariant prompts == Heard(log, self, r, 0, j)
    {
      if log[j].name != name && |log[j].said| > r {
        prompts := prompts + [log[j].said[r]];
      }
      j := j + 1;
    }
  }

  /** The message assembly of `Agent.respond` (team.py:57-114), for the agent at position `self` of the log. */
  method BuildMessages(systemText: string, name: string, taskPrompt: string, log: seq<Entry>, ghost self: nat)
    returns (messages: seq<Message>)
    requires self < |log| && log[self].name == name && DistinctNames(log)
    ensures messages == View(systemText, taskPrompt, log, self)
  {
    messages := [Message(System, SystemPrompt(name, systemText))];
    SaidByFinds(log, name, self);
    var currRounds := |SaidBy(log, name)|;
    if '1' in name {
      messages := messages + [Message(User, taskPrompt)];
    }
    var userMsgs: seq<string> := [];
    var r := 0;
    while r < currRounds
      invariant 0 <= r <= currRounds
      invariant messages == Replay(systemText, taskPrompt, log, self, r)
      invariant userMsgs == Carry(log, self, r)
    {
      messages, userMsgs := ReplayRound(systemText, name, taskPrompt, log, self, r, messages, userMsgs);
      ReplayStep(systemText, taskPrompt, log, self, r);
      r := r + 1;
    }
    if |userMsgs| > 0 {
      if messages[|messages| - 1].role == User {
        messages := messages[|messages| - 1 := Message(User,
          messages[|messages| - 1].content + "\n" + Join("\n", userMsgs) + "\n\n" + Separator + taskPrompt)];
      } else {
        messages := messages + [Message(User, Join("\n", userMsgs))];
      }
    }
    assert messages == FlushTrailing(Replay(systemText, taskPrompt, log, self, currRounds),
                                     Carry(log, self, currRounds), taskPrompt);
    var newUserPrompts := GatherRound(name, log, self, currRounds);
    if |newUserPrompts| > 0 {
      if messages[|messages| - 1].role == Assistant || messages[|messages| - 1].role == System {
        messages := messages + [Message(User, Join("\n", newUserPrompts) + "\n\n" + Separator + taskPrompt)];
      } else {
        messages := messages[|messages| - 1 := Message(User,
          messages[|messages| - 1].content + "\n" + Join("\n", newUserPrompts) + "\n" + Separator + taskPrompt)];
      }
    } else {
      if messages[|messages| - 1].role == User {
        if |messages| != 2 {
          messages := messages[|messages| - 1 := Message(User,
            messages[|messages| - 1].content + "\n" + Separator + taskPrompt)];
        }
      }
    }
  }
}
