/**
  The handful of Python string operations the debate engine and the chunkers
  rely on, written out so that their edge cases are explicit: `sep.join`,
  `str.lstrip(chars)` (which strips a character SET, not a prefix),
  `str.lstrip()`, `str.strip()`, `str.split(sep)` and `str(n)`.
 */
module Text {

  /** Python's `sep.join(parts)`. */
  function Join(sep: string, parts: seq<string>): string
    decreases |parts|
  {
    if |parts| == 0 then ""
    else if |parts| == 1 then parts[0]
    else Join(sep, parts[..|parts| - 1]) + sep + parts[|parts| - 1]
  }

  /** Joining two non-empty runs of parts puts exactly one separator between them. */
  lemma {:induction false} JoinConcat(sep: string, a: seq<string>, b: seq<string>)
    requires |a| > 0 && |b| > 0
    ensures Join(sep, a + b) == Join(sep, a) + sep + Join(sep, b)
    decreases |b|
  {
    if |b| == 1 {
      assert (a + b)[..|a + b| - 1] == a;
    } else {
      var b' := b[..|b| - 1];
      assert (a + b)[..|a + b| - 1] == a + b';
      JoinConcat(sep, a, b');
    }
  }

  lemma {:induction false} AppendAssoc<T>(a: seq<T>, b: seq<T>, c: seq<T>)
    ensures (a + b) + c == a + (b + c)
  {
  }

  /** Concatenation of a sequence of sequences. */
  function Flatten<T>(xss: seq<seq<T>>): seq<T>
    decreases |xss|
  {
    if |xss| == 0 then [] else xss[0] + Flatten(xss[1..])
  }

  lemma {:induction false} FlattenConcat<T>(a: seq<seq<T>>, b: seq<seq<T>>)
    ensures Flatten(a + b) == Flatten(a) + Flatten(b)
    decreases |a|
  {
    if |a| == 0 {
      assert a + b == b;
    } else {
      assert (a + b)[1..] == a[1..] + b;
      FlattenConcat(a[1..], b);
    }
  }

  lemma {:induction false} FlattenSnoc<T>(a: seq<seq<T>>, x: seq<T>)
    ensures Flatten(a + [x]) == Flatten(a) + x
  {
    FlattenConcat(a, [x]);
    assert Flatten([x]) == x + Flatten([]);
  }

  /** `sep.join` applied to every group of parts. */
  function JoinEach(sep: string, groups: seq<seq<string>>): (r: seq<string>)
    ensures |r| == |groups|
    ensures forall i :: 0 <= i < |r| ==> r[i] == Join(sep, groups[i])
  {
    seq(|groups|, i requires 0 <= i < |groups| => Join(sep, groups[i]))
  }

  lemma {:induction false} JoinEachConcat(sep: string, a: seq<seq<string>>, b: seq<seq<string>>)
    ensures JoinEach(sep, a + b) == JoinEach(sep, a) + JoinEach(sep, b)
  {
    assert forall i :: 0 <= i < |a| + |b| ==> (a + b)[i] == if i < |a| then a[i] else b[i - |a|];
  }

  /**
    Joining the joined groups with the same separator gives the join of all
    the parts, provided no group is empty (an empty group would contribute an
    empty string and an extra separator).
   */
  lemma {:induction false} JoinFlatten(sep: string, groups: seq<seq<string>>)
    requires forall g :: 0 <= g < |groups| ==> |groups[g]| > 0
    ensures Join(sep, JoinEach(sep, groups)) == Join(sep, Flatten(groups))
    decreases |groups|
  {
    if |groups| == 0 {
    } else if |groups| == 1 {
      assert Flatten(groups) == groups[0] + Flatten(groups[1..]);
      assert Flatten(groups[1..]) == [];
      assert groups[0] + [] == groups[0];
    } else {
      var rest := groups[1..];
      JoinFlatten(sep, rest);
      assert JoinEach(sep, groups) == [Join(sep, groups[0])] + JoinEach(sep, rest);
      JoinConcat(sep, [Join(sep, groups[0])], JoinEach(sep, rest));
      assert Flatten(groups) == groups[0] + Flatten(rest);
      FlattenNonEmpty(rest);
      JoinConcat(sep, groups[0], Flatten(rest));
    }
  }

  lemma {:induction false} FlattenNonEmpty<T>(xss: seq<seq<T>>)
    requires |xss| > 0 && |xss[0]| > 0
    ensures |Flatten(xss)| > 0
  {
  }

  /** Python's `s.lstrip(chars)`: drop every leading character that occurs in `chars`. */
  function LStrip(s: string, chars: string): string
    decreases |s|
  {
    if |s| > 0 && s[0] in chars then LStrip(s[1..], chars) else s
  }

  /** `lstrip` leaves a suffix that does not start with a stripped character, and removes only such characters. */
  lemma {:induction false} LStripSpec(s: string, chars: string)
    ensures var r := LStrip(s, chars);
      && |r| <= |s| && r == s[|s| - |r|..]
      && (|r| == 0 || r[0] !in chars)
      && (forall i :: 0 <= i < |s| - |r| ==> s[i] in chars)
    decreases |s|
  {
    if |s| > 0 && s[0] in chars {
      var t := s[1..];
      LStripSpec(t, chars);
      var r := LStrip(t, chars);
      assert r == t[|t| - |r|..];
      assert t[|t| - |r|..] == s[|s| - |r|..];
      forall i | 0 <= i < |s| - |r|
        ensures s[i] in chars
      {
        if i > 0 {
          assert s[i] == t[i - 1];
        }
      }
    }
  }

  /** `c.isspace()`: the characters Python counts as whitespace, as ranges of code points. */
  predicate IsSpace(c: char)
  {
    || '\t' <= c <= '\r' || '\U{1C}' <= c <= ' ' || c == '\U{85}' || c == '\U{A0}' || c == '\U{1680}'
    || '\U{2000}' <= c <= '\U{200A}' || c == '\U{2028}' || c == '\U{2029}' || c == '\U{202F}'
    || c == '\U{205F}' || c == '\U{3000}'
  }

  /** Python's `s.lstrip()`: drop the leading whitespace. */
  function LStripSpace(s: string): string
    decreases |s|
  {
    if |s| > 0 && IsSpace(s[0]) then LStripSpace(s[1..]) else s
  }

  /** `lstrip()` leaves a suffix that does not start with whitespace, and removes only whitespace. */
  lemma {:induction false} LStripSpaceSpec(s: string)
    ensures var r := LStripSpace(s);
      && |r| <= |s| && r == s[|s| - |r|..]
      && (|r| == 0 || !IsSpace(r[0]))
      && (forall i :: 0 <= i < |s| - |r| ==> IsSpace(s[i]))
    decreases |s|
  {
    if |s| > 0 && IsSpace(s[0]) {
      var t := s[1..];
      LStripSpaceSpec(t);
      var r := LStripSpace(t);
      assert t[|t| - |r|..] == s[|s| - |r|..];
      forall i | 0 <= i < |s| - |r|
        ensures IsSpace(s[i])
      {
        if i > 0 {
          assert s[i] == t[i - 1];
        }
      }
    }
  }

  /** Python's `s.rstrip()`: drop the trailing whitespace. */
  function RStripSpace(s: string): string
    decreases |s|
  {
    if |s| > 0 && IsSpace(s[|s| - 1]) then RStripSpace(s[..|s| - 1]) else s
  }

  /** `rstrip()` leaves a prefix that does not end in whitespace, and removes only whitespace. */
  lemma {:induction false} RStripSpaceSpec(s: string)
    ensures var r := RStripSpace(s);
      && |r| <= |s| && r == s[..|r|]
      && (|r| == 0 || !IsSpace(r[|r| - 1]))
      && (forall i :: |r| <= i < |s| ==> IsSpace(s[i]))
    decreases |s|
  {
    if |s| > 0 && IsSpace(s[|s| - 1]) {
      var t := s[..|s| - 1];
      RStripSpaceSpec(t);
      var r := RStripSpace(t);
      assert t[..|r|] == s[..|r|];
      forall i | |r| <= i < |s|
        ensures IsSpace(s[i])
      {
        if i < |s| - 1 {
          assert s[i] == t[i];
        }
      }
    }
  }

  /** Python's `s.strip()`. */
  function Strip(s: string): string
  {
    RStripSpace(LStripSpace(s))
  }

  /**
    Python's `s.split(sep)` for a non-empty separator: the pieces between
    non-overlapping occurrences of `sep`, found from the left.
   */
  function SplitOn(s: string, sep: string): (parts: seq<string>)
    requires |sep| > 0
    ensures |parts| > 0
    decreases |s|
  {
    if |s| < |sep| then [s]
    else if s[..|sep|] == sep then [""] + SplitOn(s[|sep|..], sep)
    else
      var rest := SplitOn(s[1..], sep);
      [[s[0]] + rest[0]] + rest[1..]
  }

  /** Putting one more character in front of the first part puts it in front of the join. */
  lemma {:induction false} JoinPrependChar(sep: string, c: char, parts: seq<string>)
    requires |parts| > 0
    ensures Join(sep, [[c] + parts[0]] + parts[1..]) == [c] + Join(sep, parts)
  {
    var first := [c] + parts[0];
    if |parts| == 1 {
      assert [first] + parts[1..] == [first];
    } else {
      assert parts == [parts[0]] + parts[1..];
      JoinConcat(sep, [parts[0]], parts[1..]);
      JoinConcat(sep, [first], parts[1..]);
    }
  }

  /** Splitting and joining again with the same separator gives back the text. */
  lemma {:induction false} SplitOnJoin(s: string, sep: string)
    requires |sep| > 0
    ensures Join(sep, SplitOn(s, sep)) == s
    decreases |s|
  {
    if |s| < |sep| {
    } else if s[..|sep|] == sep {
      var rest := SplitOn(s[|sep|..], sep);
      SplitOnJoin(s[|sep|..], sep);
      JoinConcat(sep, [""], rest);
      assert s == s[..|sep|] + s[|sep|..];
    } else {
      var rest := SplitOn(s[1..], sep);
      SplitOnJoin(s[1..], sep);
      JoinPrependChar(sep, s[0], rest);
      assert s == [s[0]] + s[1..];
    }
  }

  /** `sep` occurs in `s` starting at index `k`. */
  predicate OccursAt(s: string, sep: string, k: nat)
  {
    k + |sep| <= |s| && s[k..k + |sep|] == sep
  }

  /** `sep` occurs nowhere in `s`. */
  predicate NoSep(s: string, sep: string)
  {
    forall k: nat :: k + |sep| <= |s| ==> !OccursAt(s, sep, k)
  }

  /** In `p + sep`, the first occurrence of `sep` is the one appended at the end. */
  predicate FirstSepAtEnd(p: string, sep: string)
  {
    forall k: nat :: k < |p| ==> !OccursAt(p + sep, sep, k)
  }

  /** Putting a character in front moves every occurrence one place to the right. */
  lemma {:induction false} OccursAtCons(c: char, t: string, sep: string, k: nat)
    ensures OccursAt([c] + t, sep, k + 1) == OccursAt(t, sep, k)
  {
    if k + 1 + |sep| <= |[c] + t| {
      assert ([c] + t)[k + 1..k + 1 + |sep|] == t[k..k + |sep|];
    }
  }

  /**
    Pieces cut at the leftmost occurrences of `sep`, which do not overlap:
    each piece but the last is followed by the first occurrence of `sep`
    after its start, and the last piece holds no occurrence at all.
   */
  predicate Leftmost(parts: seq<string>, sep: string)
  {
    && |parts| > 0
    && NoSep(parts[|parts| - 1], sep)
    && (forall j :: 0 <= j < |parts| - 1 ==> FirstSepAtEnd(parts[j], sep))
  }

  /** An empty piece in front (the text started with `sep`) keeps the pieces leftmost. */
  lemma {:induction false} LeftmostEmptyFirst(rest: seq<string>, sep: string)
    requires Leftmost(rest, sep)
    ensures Leftmost([""] + rest, sep)
  {
    var parts := [""] + rest;
    forall j | 0 <= j < |parts| - 1
      ensures FirstSepAtEnd(parts[j], sep)
    {
      if j > 0 {
        assert parts[j] == rest[j - 1];
      }
    }
    assert parts[|parts| - 1] == rest[|rest| - 1];
  }

  /**
    A character in front of the first piece keeps the pieces leftmost, as long
    as the new text does not start with `sep`.
   */
  lemma {:induction false} LeftmostCons(c: char, rest: seq<string>, sep: string)
    requires |sep| > 0 && Leftmost(rest, sep)
    requires !OccursAt([c] + Join(sep, rest), sep, 0)
    ensures Leftmost([[c] + rest[0]] + rest[1..], sep)
  {
    var first := [c] + rest[0];
    var parts := [first] + rest[1..];
    if |rest| == 1 {
      assert Join(sep, rest) == rest[0];
      forall k: nat | k + |sep| <= |first|
        ensures !OccursAt(first, sep, k)
      {
        if k > 0 {
          OccursAtCons(c, rest[0], sep, k - 1);
        }
      }
      assert parts == [first];
    } else {
      FirstPieceCons(c, rest, sep);
      forall j | 1 <= j < |parts| - 1
        ensures FirstSepAtEnd(parts[j], sep)
      {
        assert parts[j] == rest[j];
      }
      assert parts[|parts| - 1] == rest[|rest| - 1];
    }
  }

  /** The enlarged first piece still meets `sep` first where it ends. */
  lemma {:induction false} FirstPieceCons(c: char, rest: seq<string>, sep: string)
    requires |sep| > 0 && |rest| > 1 && FirstSepAtEnd(rest[0], sep)
    requires !OccursAt([c] + Join(sep, rest), sep, 0)
    ensures FirstSepAtEnd([c] + rest[0], sep)
  {
    var first := [c] + rest[0];
    var tail := Join(sep, rest[1..]);
    assert rest == [rest[0]] + rest[1..];
    JoinConcat(sep, [rest[0]], rest[1..]);
    assert [c] + Join(sep, rest) == (first + sep) + tail;
    forall k: nat | k < |first|
      ensures !OccursAt(first + sep, sep, k)
    {
      if k == 0 {
        assert (first + sep)[..|sep|] == ((first + sep) + tail)[..|sep|];
      } else {
        OccursAtCons(c, rest[0] + sep, sep, k - 1);
        assert [c] + (rest[0] + sep) == first + sep;
      }
    }
  }

  /** The pieces of `SplitOn` are cut at the leftmost, non-overlapping occurrences of `sep`. */
  lemma {:induction false} SplitOnLeftmost(s: string, sep: string)
    requires |sep| > 0
    ensures Leftmost(SplitOn(s, sep), sep)
    decreases |s|
  {
    if |s| < |sep| {
    } else if s[..|sep|] == sep {
      SplitOnLeftmost(s[|sep|..], sep);
      LeftmostEmptyFirst(SplitOn(s[|sep|..], sep), sep);
    } else {
      var t := s[1..];
      SplitOnLeftmost(t, sep);
      SplitOnJoin(t, sep);
      assert s == [s[0]] + Join(sep, SplitOn(t, sep));
      LeftmostCons(s[0], SplitOn(t, sep), sep);
    }
  }

  /** The decimal digit for `d`. */
  function Digit(d: nat): char
    requires d < 10
  {
    (48 + d) as char
  }

  /** Python's `str(n)` for a natural number. */
  function NatToString(n: nat): (s: string)
    ensures |s| > 0
    ensures n < 10 <==> |s| == 1
    decreases n
  {
    if n < 10 then [Digit(n)] else NatToString(n / 10) + [Digit(n % 10)]
  }

  /** Distinct numbers have distinct decimal texts. */
  lemma {:induction false} NatToStringInjective(a: nat, b: nat)
    requires NatToString(a) == NatToString(b)
    ensures a == b
    decreases a
  {
    var s := NatToString(a);
    if a >= 10 && b >= 10 {
      assert s[|s| - 1] == Digit(a % 10) && s[|s| - 1] == Digit(b % 10);
      assert s[..|s| - 1] == NatToString(a / 10) && s[..|s| - 1] == NatToString(b / 10);
      NatToStringInjective(a / 10, b / 10);
    }
  }

  /** Every character of a decimal text is a digit. */
  lemma {:induction false} NatToStringDigits(n: nat)
    ensures forall k :: 0 <= k < |NatToString(n)| ==> '0' <= NatToString(n)[k] <= '9'
    decreases n
  {
    if n >= 10 {
      NatToStringDigits(n / 10);
    }
  }

  /** Python's `str(i)` for an integer. */
  function IntToString(i: int): string
  {
    if i < 0 then "-" + NatToString(-i) else NatToString(i)
  }

  /** The text of an integer is non-empty and starts with '-' exactly when the integer is negative. */
  lemma {:induction false} IntToStringSign(i: int)
    ensures |IntToString(i)| > 0
    ensures IntToString(i)[0] == '-' <==> i < 0
  {
    if i >= 0 {
      NatToStringDigits(i);
    }
  }

  /** Distinct integers have distinct texts. */
  lemma {:induction false} IntToStringInjective(a: int, b: int)
    requires IntToString(a) == IntToString(b)
    ensures a == b
  {
    IntToStringSign(a);
    IntToStringSign(b);
    if a < 0 {
      assert NatToString(-a) == IntToString(a)[1..] == NatToString(-b);
      NatToStringInjective(-a, -b);
    } else {
      NatToStringInjective(a, b);
    }
  }
}
