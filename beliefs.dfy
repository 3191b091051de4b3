/**
  The belief update of `Agent.eval` and the belief rendering of
  `Agent.format_belief_box` (mad_framework/team.py).

  `eval` walks the agent's beliefs in order. For each one it asks the judge
  model about it, showing the CURRENT list (so beliefs revised earlier in the
  same pass are shown revised), keeps the statement text and sets the
  strength from the judge's reply: the reply is narrowed to the span from its
  first '{' to its last '}' when there is one, then parsed; the parsed
  `updated_strength` is stored as it is, without any clamping to 1..5, and 0
  is stored whenever parsing or the lookup fails.

  The judge and the JSON parser are parameters: `judge` maps what the judge
  is shown to its reply, `parse` maps a text to the integer
  `json.loads(text)["updated_strength"]`, or to `None` when that raises.
 */
module Beliefs {
  import opened Wrappers
  import opened Text

  /** A belief: its statement and its strength. */
  datatype Belief = Belief(statement: string, strength: int)

  /** What the judge is shown for belief `index`: the agent, its current beliefs and the discussion so far. */
  datatype EvalQuery = EvalQuery(name: string, persona: string, current: seq<Belief>, index: nat, discussion: string)

  /** Position of the first `c` in `s`, or `|s|` when `c` does not occur. */
  function FirstIndexOf(s: string, c: char): (i: nat)
    ensures i <= |s|
    ensures i < |s| ==> s[i] == c
    ensures forall k :: 0 <= k < i ==> s[k] != c
    decreases |s|
  {
    if |s| == 0 then 0
    else if s[0] == c then 0
    else
      var i := FirstIndexOf(s[1..], c);
      assert forall k :: 1 <= k < 1 + i ==> s[k] == s[1..][k - 1];
      1 + i
  }

  /** Position of the last `c` in `s`, or -1 when `c` does not occur. */
  function LastIndexOf(s: string, c: char): (j: int)
    ensures -1 <= j < |s|
    ensures j >= 0 ==> s[j] == c
    ensures forall k :: j < k < |s| ==> s[k] != c
    decreases |s|
  {
    if |s| == 0 then -1
    else if s[|s| - 1] == c then |s| - 1
    else
      var j := LastIndexOf(s[..|s| - 1], c);
      assert forall k :: j < k < |s| - 1 ==> s[k] == s[..|s| - 1][k];
      j
  }

  /** A '{' followed, somewhere later, by a '}': what the greedy `\{.*\}` search needs to match. */
  predicate HasBraceSpan(s: string)
  {
    exists i, j :: 0 <= i < j < |s| && s[i] == '{' && s[j] == '}'
  }

  /**
    `re.search(r"\{.*\}", s, flags=re.DOTALL).group(0)`, or `s` itself when
    there is no match (the exception is caught and the reply kept).
   */
  function ExtractBraces(s: string): string
  {
    var i := FirstIndexOf(s, '{');
    var j := LastIndexOf(s, '}');
    if i < j then s[i..j + 1] else s
  }

  /**
    Without a brace span the reply is kept as it is; with one, the result is
    the span from the first '{' of the reply to its last '}'.
   */
  lemma {:induction false} ExtractBracesSpec(s: string)
    ensures !HasBraceSpan(s) ==> ExtractBraces(s) == s
    ensures HasBraceSpan(s) ==>
      exists i, j :: 0 <= i < j < |s| && ExtractBraces(s) == s[i..j + 1]
        && s[i] == '{' && s[j] == '}'
        && (forall k :: 0 <= k < i ==> s[k] != '{')
        && (forall k :: j < k < |s| ==> s[k] != '}')
  {
    var i := FirstIndexOf(s, '{');
    var j := LastIndexOf(s, '}');
    if i < j {
      assert ExtractBraces(s) == s[i..j + 1];
      assert 0 <= i < j < |s| && s[i] == '{' && s[j] == '}';
    } else {
      forall i0, j0 | 0 <= i0 < j0 < |s| && s[i0] == '{'
        ensures s[j0] != '}'
      {
        assert i <= i0;
        if j0 <= j {
          assert false;
        }
      }
    }
  }

  /** The strength stored for a judge reply: the parsed value as it is, or 0 when parsing fails. */
  function Revised(reply: string, parse: string -> Option<int>): int
  {
    match parse(ExtractBraces(reply))
    case Some(v) => v
    case None => 0
  }

  /** The beliefs after the loop of `eval` has handled positions `i ..` of `current`. */
  function Reassessed(name: string, persona: string, discussion: string, judge: EvalQuery -> string,
                      parse: string -> Option<int>, current: seq<Belief>, i: nat): seq<Belief>
    requires i <= |current|
    decreases |current| - i
  {
    if i == |current| then current
    else
      var reply := judge(EvalQuery(name, persona, current, i, discussion));
      Reassessed(name, persona, discussion, judge, parse,
                 current[i := Belief(current[i].statement, Revised(reply, parse))], i + 1)
  }

  lemma {:induction false} ReassessedFrom(name: string, persona: string, discussion: string, judge: EvalQuery -> string,
                                          parse: string -> Option<int>, current: seq<Belief>, i: nat)
    requires i <= |current|
    ensures var r := Reassessed(name, persona, discussion, judge, parse, current, i);
      && |r| == |current| && r[..i] == current[..i]
      && forall k :: i <= k < |current| ==>
           && r[k].statement == current[k].statement
           && r[k].strength == Revised(judge(EvalQuery(name, persona, r[..k] + current[k..], k, discussion)), parse)
    decreases |current| - i
  {
    if i < |current| {
      var reply := judge(EvalQuery(name, persona, current, i, discussion));
      var next := current[i := Belief(current[i].statement, Revised(reply, parse))];
      ReassessedFrom(name, persona, discussion, judge, parse, next, i + 1);
      var r := Reassessed(name, persona, discussion, judge, parse, next, i + 1);
      assert r == Reassessed(name, persona, discussion, judge, parse, current, i);
      assert r[..i + 1] == next[..i + 1];
      assert r[..i] == r[..i + 1][..i] == next[..i + 1][..i] == current[..i];
      forall k | i <= k < |current|
        ensures r[k].statement == current[k].statement
        ensures r[k].strength == Revised(judge(EvalQuery(name, persona, r[..k] + current[k..], k, discussion)), parse)
      {
        if k == i {
          assert r[i] == r[..i + 1][i] == next[i];
          assert r[..i] + current[i..] == current;
        } else {
          assert next[k..] == current[k..];
        }
      }
    }
  }

  /**
    `eval` keeps the number of beliefs and every statement; strength `k`
    becomes the revised value of the judge's reply to a query that shows the
    beliefs before `k` already revised and those from `k` on as they were.
   */
  lemma {:induction false} ReassessEach(name: string, persona: string, discussion: string, judge: EvalQuery -> string,
                     parse: string -> Option<int>, beliefs: seq<Belief>)
    ensures var r := Reassessed(name, persona, discussion, judge, parse, beliefs, 0);
      && |r| == |beliefs|
      && forall k :: 0 <= k < |beliefs| ==>
           && r[k].statement == beliefs[k].statement
           && (r[..k] + beliefs[k..])[k] == beliefs[k]
           && r[k].strength == Revised(judge(EvalQuery(name, persona, r[..k] + beliefs[k..], k, discussion)), parse)
  {
    ReassessedFrom(name, persona, discussion, judge, parse, beliefs, 0);
  }

  /** One line of the belief box. */
  function BeliefLine(b: Belief): string
  {
    b.statement + " (" + IntToString(b.strength) + " out of 5)"
  }

  function BeliefLines(box: seq<Belief>): (lines: seq<string>)
    ensures |lines| == |box|
    ensures forall i :: 0 <= i < |box| ==> lines[i] == BeliefLine(box[i])
  {
    seq(|box|, i requires 0 <= i < |box| => BeliefLine(box[i]))
  }

  /** The text `format_belief_box` returns: the lines joined by " \n". */
  function BeliefBox(box: seq<Belief>): string
  {
    Join(" \n", BeliefLines(box))
  }

  /** Two beliefs stating the same thing are rendered alike only when their strengths agree. */
  lemma {:induction false} BeliefLineInjective(a: Belief, b: Belief)
    requires a.statement == b.statement && BeliefLine(a) == BeliefLine(b)
    ensures a == b
  {
    var line := BeliefLine(a);
    var n := |a.statement| + 2;
    assert line[n..] == IntToString(a.strength) + " out of 5)";
    assert line[n..] == IntToString(b.strength) + " out of 5)";
    assert IntToString(a.strength) == line[n..][..|line| - n - 10];
    assert IntToString(b.strength) == line[n..][..|line| - n - 10];
    IntToStringInjective(a.strength, b.strength);
  }

  /** The box of two non-empty runs of beliefs is their boxes, one line break apart. */
  lemma {:induction false} BeliefBoxConcat(a: seq<Belief>, b: seq<Belief>)
    requires |a| > 0 && |b| > 0
    ensures BeliefBox(a + b) == BeliefBox(a) + " \n" + BeliefBox(b)
  {
    assert BeliefLines(a + b) == BeliefLines(a) + BeliefLines(b);
    JoinConcat(" \n", BeliefLines(a), BeliefLines(b));
  }
}
