/**
  The three contract chunkers of mad_cuad/cuad_dataset.py.

  `ChunkByWordCount` cuts the word list of a text into runs of a fixed size.
  `SentenceBasedChunk` packs sentences greedily against a word target and
  then merges the last chunks until there are at most `n` of them.
  `ParagraphBasedChunk` groups paragraphs, splits the largest chunk at its
  middle sentence while there are too few chunks, and merges the lightest
  adjacent pair while there are too many.

  Python's `str.split()` is modelled exactly (`Words`, over the characters of `IsSpace`). NLTK's
  `sent_tokenize` is a parameter `tokenize` of type `string -> seq<string>`.
 */
module Chunking {
  import opened Text
  import opened Arith

  // ---------------------------------------------------------------- words

  /** A word as `str.split()` returns it: non-empty, with no whitespace. */
  predicate IsWord(w: string)
  {
    |w| > 0 && forall k :: 0 <= k < |w| ==> !IsSpace(w[k])
  }

  /** Length of the longest prefix of `s` that holds no whitespace. */
  function WordEnd(s: string): (e: nat)
    ensures e <= |s|
    ensures forall k :: 0 <= k < e ==> !IsSpace(s[k])
    ensures e < |s| ==> IsSpace(s[e])
    decreases |s|
  {
    if |s| == 0 || IsSpace(s[0]) then 0
    else
      var e := WordEnd(s[1..]);
      assert forall k :: 1 <= k < 1 + e ==> s[k] == s[1..][k - 1];
      1 + e
  }

  /** Python's `s.split()` with no argument: the maximal runs of non-whitespace characters. */
  function Words(s: string): seq<string>
    decreases |s|
  {
    if |s| == 0 then []
    else if IsSpace(s[0]) then Words(s[1..])
    else
      var e := WordEnd(s);
      [s[..e]] + Words(s[e..])
  }

  /** Every piece `split()` returns is a word. */
  lemma {:induction false} WordsAreWords(s: string)
    ensures forall i :: 0 <= i < |Words(s)| ==> IsWord(Words(s)[i])
    decreases |s|
  {
    if |s| == 0 {
    } else if IsSpace(s[0]) {
      WordsAreWords(s[1..]);
    } else {
      var e := WordEnd(s);
      WordsAreWords(s[e..]);
      assert Words(s) == [s[..e]] + Words(s[e..]);
    }
  }

  lemma {:induction false} WordEndOfWord(w: string, t: string)
    requires IsWord(w) && (|t| == 0 || IsSpace(t[0]))
    ensures WordEnd(w + t) == |w|
  {
    var s := w + t;
    assert forall k :: 0 <= k < |w| ==> s[k] == w[k];
    assert |w| < |s| ==> s[|w|] == t[0];
  }

  /** Splitting words joined by single spaces gives back the words. */
  lemma {:induction false} WordsOfJoin(ws: seq<string>)
    requires forall i :: 0 <= i < |ws| ==> IsWord(ws[i])
    ensures Words(Join(" ", ws)) == ws
    decreases |ws|
  {
    if |ws| == 0 {
    } else {
      var w := ws[0];
      if |ws| == 1 {
        WordEndOfWord(w, "");
        assert w + "" == w;
        assert w[|w|..] == "";
      } else {
        var rest := ws[1..];
        assert ws == [w] + rest;
        JoinConcat(" ", [w], rest);
        var t := " " + Join(" ", rest);
        var s := w + t;
        assert Join(" ", ws) == s;
        WordEndOfWord(w, t);
        assert s[..|w|] == w && s[|w|..] == t;
        assert t[1..] == Join(" ", rest);
        WordsOfJoin(rest);
      }
    }
  }

  // ---------------------------------------------------------------- runs of fixed size

  /** Consecutive runs of `size` elements; the last run may be shorter. */
  function Groups<T>(xs: seq<T>, size: nat): seq<seq<T>>
    requires size > 0
    decreases |xs|
  {
    if |xs| == 0 then []
    else if |xs| <= size then [xs]
    else [xs[..size]] + Groups(xs[size..], size)
  }

  /** The runs cover the input in order; each is non-empty and every run but the last has exactly `size` elements. */
  lemma {:induction false} GroupsSpec<T>(xs: seq<T>, size: nat)
    requires size > 0
    ensures var g := Groups(xs, size);
      && Flatten(g) == xs
      && |g| == (|xs| + size - 1) / size
      && (forall i :: 0 <= i < |g| ==> 0 < |g[i]| <= size)
      && (forall i :: 0 <= i < |g| - 1 ==> |g[i]| == size)
    decreases |xs|
  {
    var g := Groups(xs, size);
    if |xs| == 0 {
      ModUnique(size - 1, size, 0, size - 1);
    } else if |xs| <= size {
      assert Flatten(g) == xs + Flatten([]);
      ModUnique(|xs| + size - 1, size, 1, |xs| - 1);
    } else {
      var rest := xs[size..];
      GroupsSpec(rest, size);
      assert g == [xs[..size]] + Groups(rest, size);
      assert Flatten(g) == xs[..size] + Flatten(Groups(rest, size));
      assert xs == xs[..size] + rest;
      DivShift(|xs| + size - 1, size);
    }
  }

  /** A full first run comes off the front unchanged. */
  lemma {:induction false} GroupsFull<T>(a: seq<T>, b: seq<T>, size: nat)
    requires size > 0 && |a| == size
    ensures Groups(a + b, size) == [a] + Groups(b, size)
  {
    if |b| == 0 {
      assert a + b == a;
    } else {
      assert (a + b)[..size] == a && (a + b)[size..] == b;
    }
  }

  // ---------------------------------------------------------------- chunk_by_word_count

  /** Python's `a // b`: the quotient rounded toward minus infinity. */
  function FloorDiv(a: int, b: int): (q: int)
    requires b != 0
    ensures b > 0 ==> b * q <= a < b * q + b
    ensures b < 0 ==> b * q + b < a <= b * q
  {
    if b > 0 then a / b else (-a) / (-b)
  }

  /** `max(1, total_words // n_chunks)`. */
  function ChunkSize(total: nat, n: int): (size: nat)
    requires n != 0
    ensures size >= 1
  {
    var q := FloorDiv(total, n);
    if q < 1 then 1 else q
  }

  /** What `chunk_by_word_count(text, n)` returns. */
  function WordChunks(text: string, n: int): seq<string>
    requires n != 0
  {
    var words := Words(text);
    JoinEach(" ", Groups(words, ChunkSize(|words|, n)))
  }

  /**
    The chunks hold the text's words in order and nothing else; every chunk
    but the last has exactly `max(1, total // n)` words and the last has
    between one and that many; there are `ceil(total / size)` chunks, so
    possibly more than `n`, and none for a text without words.
   */
  lemma {:induction false} WordChunksSpec(text: string, n: int)
    requires n != 0
    ensures var c := WordChunks(text, n);
      var total := |Words(text)|;
      var size := ChunkSize(total, n);
      && Flatten(seq(|c|, i requires 0 <= i < |c| => Words(c[i]))) == Words(text)
      && (forall i :: 0 <= i < |c| ==> 0 < |Words(c[i])| <= size)
      && (forall i :: 0 <= i < |c| - 1 ==> |Words(c[i])| == size)
      && |c| == (total + size - 1) / size
      && (|c| == 0 <==> total == 0)
  {
    var words := Words(text);
    var size := ChunkSize(|words|, n);
    var g := Groups(words, size);
    var c := WordChunks(text, n);
    GroupsSpec(words, size);
    WordsAreWords(text);
    forall i | 0 <= i < |g|
      ensures Words(c[i]) == g[i]
    {
      GroupsMembers(words, size, i);
      WordsOfJoin(g[i]);
    }
    assert seq(|c|, i requires 0 <= i < |c| => Words(c[i])) == g;
    if |words| > 0 {
      assert |g| > 0 by {
        assert Groups(words, size)[0] == if |words| <= size then words else words[..size];
      }
    }
  }

  /** Every element of a run is an element of the input. */
  lemma {:induction false} GroupsMembers<T>(xs: seq<T>, size: nat, i: nat)
    requires size > 0 && i < |Groups(xs, size)|
    ensures forall k :: 0 <= k < |Groups(xs, size)[i]| ==> Groups(xs, size)[i][k] in xs
    decreases |xs|
  {
    if |xs| > size && i > 0 {
      GroupsMembers(xs[size..], size, i - 1);
      assert Groups(xs, size)[i] == Groups(xs[size..], size)[i - 1];
    }
  }

  /** The runs from position `i` on: the run starting at `i`, then the runs after it. */
  lemma {:induction false} GroupsAt(words: seq<string>, i: nat, size: nat)
    requires size > 0 && i < |words|
    ensures var j := if i + size < |words| then i + size else |words|;
      && JoinEach(" ", Groups(words[i..], size)) == [Join(" ", words[i..j])] + JoinEach(" ", Groups(words[j..], size))
      && (i + size > |words| ==> j == |words| && Groups(words[j..], size) == [])
  {
    var j := if i + size < |words| then i + size else |words|;
    var rest := words[i..];
    if |rest| > size {
      assert rest[..size] == words[i..j] && rest[size..] == words[j..];
    } else {
      assert rest == words[i..j] && words[j..] == [];
    }
    JoinEachConcat(" ", [words[i..j]], Groups(words[j..], size));
  }

  /** `chunk_by_word_count`: one chunk per start position `0, size, 2 * size, ...` below the word count. */
  method ChunkByWordCount(text: string, n: int) returns (chunks: seq<string>)
    requires n != 0
    ensures chunks == WordChunks(text, n)
  {
    var words := Words(text);
    var total := |words|;
    var size := ChunkSize(total, n);
    ghost var all := Groups(words, size);
    chunks := [];
    var i := 0;
    while i < total
      invariant 0 <= i
      invariant i <= total ==> chunks + JoinEach(" ", Groups(words[i..], size)) == JoinEach(" ", all)
      invariant i > total ==> chunks == JoinEach(" ", all)
      decreases total - i
    {
      var j := if i + size < total then i + size else total;
      var chunk := Join(" ", words[i..j]);
      GroupsAt(words, i, size);
      ghost var rest := JoinEach(" ", Groups(words[j..], size));
      AppendAssoc(chunks, [chunk], rest);
      if i + size > total {
        assert rest == [];
        assert chunks + [chunk] + rest == chunks + [chunk];
      }
      chunks := chunks + [chunk];
      i := i + size;
    }
  }

  // ---------------------------------------------------------------- sentence_based_chunk

  /** `sum(len(s.split()) for s in parts)`. */
  function WordSum(parts: seq<string>): nat
    decreases |parts|
  {
    if |parts| == 0 then 0 else WordSum(parts[..|parts| - 1]) + |Words(parts[|parts| - 1])|
  }

  /** The state of the greedy pass: the chunks closed so far, the open chunk and its word count. */
  datatype Packing = Packing(closed: seq<seq<string>>, open: seq<string>, count: nat)

  /** One sentence of the greedy pass: close the open chunk first when the sentence would take it over the target. */
  function PackStep(p: Packing, sent: string, target: int): Packing
  {
    var w := |Words(sent)|;
    if p.count + w > target && |p.open| > 0 then Packing(p.closed + [p.open], [sent], w)
    else Packing(p.closed, p.open + [sent], p.count + w)
  }

  /** The greedy pass over `sentences`. */
  function Greedy(sentences: seq<string>, target: int): Packing
    decreases |sentences|
  {
    if |sentences| == 0 then Packing([], [], 0)
    else PackStep(Greedy(sentences[..|sentences| - 1], target), sentences[|sentences| - 1], target)
  }

  /** The sentence groups of the greedy pass, the open one included when it is not empty. */
  function Pack(sentences: seq<string>, target: int): seq<seq<string>>
  {
    var p := Greedy(sentences, target);
    if |p.open| > 0 then p.closed + [p.open] else p.closed
  }

  /** A chunk the greedy pass may build: non-empty, and over the target only when it is a single sentence. */
  predicate WithinTarget(g: seq<string>, target: int)
  {
    |g| > 0 && (|g| == 1 || WordSum(g) <= target)
  }

  /** The closed chunks followed by the open one are the sentences read so far. */
  lemma {:induction false} GreedyCovers(sentences: seq<string>, target: int)
    ensures Flatten(Greedy(sentences, target).closed) + Greedy(sentences, target).open == sentences
    decreases |sentences|
  {
    if |sentences| > 0 {
      var prefix := sentences[..|sentences| - 1];
      var sent := sentences[|sentences| - 1];
      GreedyCovers(prefix, target);
      var p := Greedy(prefix, target);
      assert sentences == prefix + [sent];
      if p.count + |Words(sent)| > target && |p.open| > 0 {
        FlattenSnoc(p.closed, p.open);
      }
    }
  }

  /** The running count is the word count of the open chunk, which is empty only before the first sentence. */
  lemma {:induction false} GreedyCount(sentences: seq<string>, target: int)
    ensures Greedy(sentences, target).count == WordSum(Greedy(sentences, target).open)
    ensures |sentences| > 0 ==> |Greedy(sentences, target).open| > 0
    decreases |sentences|
  {
    if |sentences| > 0 {
      var prefix := sentences[..|sentences| - 1];
      var sent := sentences[|sentences| - 1];
      GreedyCount(prefix, target);
      var p := Greedy(prefix, target);
      if p.count + |Words(sent)| > target && |p.open| > 0 {
        assert [sent][..0] == [];
      } else {
        assert (p.open + [sent])[..|p.open|] == p.open;
      }
    }
  }

  /** Every chunk of the greedy pass, the open one included, keeps within the target unless it is one sentence. */
  lemma {:induction false} GreedyBound(sentences: seq<string>, target: int)
    ensures |sentences| > 0 ==> WithinTarget(Greedy(sentences, target).open, target)
    ensures forall i :: 0 <= i < |Greedy(sentences, target).closed| ==> WithinTarget(Greedy(sentences, target).closed[i], target)
    decreases |sentences|
  {
    if |sentences| > 0 {
      var prefix := sentences[..|sentences| - 1];
      var sent := sentences[|sentences| - 1];
      GreedyBound(prefix, target);
      GreedyCount(prefix, target);
      var p := Greedy(prefix, target);
      if p.count + |Words(sent)| > target && |p.open| > 0 {
        assert [sent][..0] == [];
      } else {
        assert (p.open + [sent])[..|p.open|] == p.open;
      }
    }
  }

  /** Chunk `i` was closed because the next sentence would take it over the target. */
  predicate ClosedAt(g: seq<seq<string>>, i: nat, target: int)
    requires i + 1 < |g|
  {
    |g[i + 1]| > 0 && WordSum(g[i]) + |Words(g[i + 1][0])| > target
  }

  /** Whether chunk `i` was closed depends only on chunk `i` and the first sentence of the next one. */
  lemma {:induction false} ClosedAtSame(g: seq<seq<string>>, h: seq<seq<string>>, i: nat, target: int)
    requires i + 1 < |g| && i + 1 < |h| && g[i] == h[i]
    requires |g[i + 1]| > 0 && |h[i + 1]| > 0 && g[i + 1][0] == h[i + 1][0]
    ensures ClosedAt(g, i, target) == ClosedAt(h, i, target)
  {
  }

  /**
    A chunk is closed only because the next sentence would take it over the
    target: its word count plus that of the first sentence after it exceeds
    the target.
   */
  lemma {:induction false} PackClosing(sentences: seq<string>, target: int)
    ensures var g := Pack(sentences, target);
      forall i :: 0 <= i < |g| - 1 ==> ClosedAt(g, i, target)
    decreases |sentences|
  {
    if |sentences| > 0 {
      var prefix := sentences[..|sentences| - 1];
      var sent := sentences[|sentences| - 1];
      PackClosing(prefix, target);
      GreedyCount(prefix, target);
      GreedyBound(prefix, target);
      var p := Greedy(prefix, target);
      var before := Pack(prefix, target);
      var g := Pack(sentences, target);
      if p.count + |Words(sent)| > target && |p.open| > 0 {
        assert before == p.closed + [p.open];
        assert g == before + [[sent]];
        forall i | 0 <= i < |g| - 1
          ensures ClosedAt(g, i, target)
        {
          if i + 1 < |before| {
            assert g[i] == before[i] && g[i + 1] == before[i + 1];
            ClosedAtSame(g, before, i, target);
          } else {
            assert g[i] == p.open && g[i + 1] == [sent];
          }
        }
      } else if |p.open| > 0 {
        assert before == p.closed + [p.open];
        assert g == p.closed + [p.open + [sent]];
        forall i | 0 <= i < |g| - 1
          ensures ClosedAt(g, i, target)
        {
          assert g[i] == before[i];
          if i + 1 < |p.closed| {
            assert g[i + 1] == before[i + 1] == p.closed[i + 1];
          } else {
            assert g[i + 1] == p.open + [sent] && before[i + 1] == p.open;
          }
          ClosedAtSame(g, before, i, target);
        }
      } else {
        GreedyCount(sentences, target);
        assert |g| == 1;
      }
    }
  }

  /**
    The greedy groups hold the sentences in order; no group is empty, and a
    group goes over the word target only when it is one sentence.
   */
  lemma {:induction false} PackSpec(sentences: seq<string>, target: int)
    ensures var g := Pack(sentences, target);
      && Flatten(g) == sentences
      && (forall i :: 0 <= i < |g| ==> WithinTarget(g[i], target))
      && (forall i :: 0 <= i < |g| - 1 ==> ClosedAt(g, i, target))
  {
    GreedyCovers(sentences, target);
    GreedyBound(sentences, target);
    PackClosing(sentences, target);
    var p := Greedy(sentences, target);
    var g := Pack(sentences, target);
    if |p.open| > 0 {
      assert g == p.closed + [p.open];
      FlattenSnoc(p.closed, p.open);
      forall i | 0 <= i < |g|
        ensures WithinTarget(g[i], target)
      {
        if i < |p.closed| {
          assert g[i] == p.closed[i];
        }
      }
    } else {
      assert g == p.closed;
      assert Flatten(p.closed) + [] == Flatten(p.closed);
    }
  }

  /** The list after the loop that merges the last two chunks while there are more than `n`. */
  function MergeTail(chunks: seq<string>, n: nat): seq<string>
    requires n >= 1
  {
    if |chunks| <= n then chunks else chunks[..n - 1] + [Join(" ", chunks[n - 1..])]
  }

  /** What `sentence_based_chunk(text, n)` returns. */
  function SentenceChunks(text: string, n: nat, tokenize: string -> seq<string>): seq<string>
    requires n >= 1
  {
    var sentences := tokenize(text);
    MergeTail(JoinEach(" ", Pack(sentences, WordSum(sentences) / n)), n)
  }

  /** Merging the last two parts with the separator leaves the join unchanged. */
  lemma {:induction false} JoinMergeLast(sep: string, parts: seq<string>)
    requires |parts| >= 2
    ensures var k := |parts|;
      Join(sep, parts[..k - 2] + [parts[k - 2] + sep + parts[k - 1]]) == Join(sep, parts)
  {
    var k := |parts|;
    var head := parts[..k - 2];
    var merged := head + [parts[k - 2] + sep + parts[k - 1]];
    var init := parts[..k - 1];
    assert Join(sep, parts) == Join(sep, init) + sep + parts[k - 1];
    if k > 2 {
      assert merged[..k - 2] == head && init[..k - 2] == head;
      assert Join(sep, merged) == Join(sep, head) + sep + (parts[k - 2] + sep + parts[k - 1]);
      assert Join(sep, init) == Join(sep, head) + sep + parts[k - 2];
    } else {
      assert merged == [parts[0] + sep + parts[1]];
      assert init == [parts[0]];
    }
  }

  /**
    The chunks, read with single spaces between them, are the sentences read
    with single spaces; there are at most `n`; the first `n - 1` greedy
    chunks survive unchanged and only the tail is merged.
   */
  lemma {:induction false} SentenceChunksSpec(text: string, n: nat, tokenize: string -> seq<string>)
    requires n >= 1
    ensures var sentences := tokenize(text);
      var packed := JoinEach(" ", Pack(sentences, WordSum(sentences) / n));
      var c := SentenceChunks(text, n, tokenize);
      && Join(" ", c) == Join(" ", sentences)
      && |c| == (if |packed| <= n then |packed| else n)
      && (forall i :: 0 <= i < |c| - 1 ==> c[i] == packed[i])
      && (|packed| <= n ==> c == packed)
  {
    var sentences := tokenize(text);
    var groups := Pack(sentences, WordSum(sentences) / n);
    PackSpec(sentences, WordSum(sentences) / n);
    JoinFlatten(" ", groups);
    MergeTailSpec(JoinEach(" ", groups), n);
  }

  /**
    Merging the tail keeps the text the chunks read as when joined by
    spaces, leaves `min(len, n)` chunks and keeps all but the last in place.
   */
  lemma {:induction false} MergeTailSpec(chunks: seq<string>, n: nat)
    requires n >= 1
    ensures var c := MergeTail(chunks, n);
      && Join(" ", c) == Join(" ", chunks)
      && |c| == (if |chunks| <= n then |chunks| else n)
      && (forall i :: 0 <= i < |c| - 1 ==> c[i] == chunks[i])
  {
    if |chunks| > n {
      var head := chunks[..n - 1];
      var tail := chunks[n - 1..];
      assert chunks == head + tail;
      if n > 1 {
        JoinConcat(" ", head, [Join(" ", tail)]);
        JoinConcat(" ", head, tail);
      } else {
        assert MergeTail(chunks, n) == [Join(" ", chunks)];
      }
    }
  }

  /** `sentence_based_chunk`: the greedy pass, then merging the last two chunks while there are more than `n`. */
  method SentenceBasedChunk(text: string, n: nat, tokenize: string -> seq<string>) returns (chunks: seq<string>)
    requires n >= 1
    ensures chunks == SentenceChunks(text, n, tokenize)
  {
    var sentences := tokenize(text);
    chunks := PackSentences(sentences, WordSum(sentences) / n);
    chunks := MergeLastTwo(chunks, n);
  }

  /** The greedy loop: add sentences to the open chunk, closing it first when the next one would take it over `target`. */
  method PackSentences(sentences: seq<string>, target: int) returns (chunks: seq<string>)
    ensures chunks == JoinEach(" ", Pack(sentences, target))
  {
    chunks := [];
    var current: seq<string> := [];
    var count := 0;
    for i := 0 to |sentences|
      invariant chunks == JoinEach(" ", Greedy(sentences[..i], target).closed)
      invariant current == Greedy(sentences[..i], target).open
      invariant count == Greedy(sentences[..i], target).count
    {
      var sent := sentences[i];
      var w := |Words(sent)|;
      assert sentences[..i + 1][..i] == sentences[..i];
      if count + w > target && |current| > 0 {
        JoinEachConcat(" ", Greedy(sentences[..i], target).closed, [current]);
        chunks := chunks + [Join(" ", current)];
        current := [];
        count := 0;
      }
      current := current + [sent];
      count := count + w;
    }
    assert sentences[..|sentences|] == sentences;
    if |current| > 0 {
      JoinEachConcat(" ", Greedy(sentences, target).closed, [current]);
      chunks := chunks + [Join(" ", current)];
    }
  }

  /** The merge loop: while there are more than `n` chunks, join the last two with a space. */
  method MergeLastTwo(packed: seq<string>, n: nat) returns (chunks: seq<string>)
    requires n >= 1
    ensures chunks == MergeTail(packed, n)
  {
    chunks := packed;
    while |chunks| > n
      invariant MergeTail(chunks, n) == MergeTail(packed, n)
      decreases |chunks|
    {
      var k := |chunks|;
      ghost var before := chunks;
      chunks := chunks[..k - 2] + [chunks[k - 2] + " " + chunks[k - 1]];
      MergeTailStep(before, n);
    }
  }

  lemma {:induction false} MergeTailStep(chunks: seq<string>, n: nat)
    requires n >= 1 && |chunks| > n
    ensures var k := |chunks|;
      MergeTail(chunks[..k - 2] + [chunks[k - 2] + " " + chunks[k - 1]], n) == MergeTail(chunks, n)
  {
    var k := |chunks|;
    var next := chunks[..k - 2] + [chunks[k - 2] + " " + chunks[k - 1]];
    var tail := chunks[n - 1..];
    assert |tail| >= 2;
    JoinMergeLast(" ", tail);
    assert tail[..|tail| - 2] + [tail[|tail| - 2] + " " + tail[|tail| - 1]] == next[n - 1..];
    assert next[..n - 1] == chunks[..n - 1];
  }

  // ---------------------------------------------------------------- paragraph_based_chunk

  /** `[p.strip() for p in pieces if p.strip()]`. */
  function Kept(pieces: seq<string>): (ps: seq<string>)
    ensures forall i :: 0 <= i < |ps| ==> |ps[i]| > 0
    decreases |pieces|
  {
    if |pieces| == 0 then []
    else
      var last := Strip(pieces[|pieces| - 1]);
      Kept(pieces[..|pieces| - 1]) + (if |last| > 0 then [last] else [])
  }

  /** The stripped, non-empty pieces of the text between occurrences of "\n\n". */
  function Paragraphs(text: string): seq<string>
  {
    Kept(SplitOn(text, "\n\n"))
  }

  /** The chunks before splitting and merging: the paragraphs, or runs of `max(1, total // n)` of them. */
  function InitialChunks(paragraphs: seq<string>, n: int): seq<string>
    requires n >= 1 || |paragraphs| <= n
  {
    if |paragraphs| <= n then paragraphs
    else
      var per := if |paragraphs| / n < 1 then 1 else |paragraphs| / n;
      JoinEach("\n\n", Groups(paragraphs, per))
  }

  /** The initial chunks read with "\n\n" between them are the paragraphs, and there is one as soon as there is a paragraph. */
  lemma {:induction false} InitialChunksSpec(paragraphs: seq<string>, n: int)
    requires n >= 1 || |paragraphs| <= n
    ensures var c := InitialChunks(paragraphs, n);
      && Join("\n\n", c) == Join("\n\n", paragraphs)
      && (|c| == 0 <==> |paragraphs| == 0)
  {
    if |paragraphs| > n {
      var per := if |paragraphs| / n < 1 then 1 else |paragraphs| / n;
      var g := Groups(paragraphs, per);
      GroupsSpec(paragraphs, per);
      JoinFlatten("\n\n", g);
      assert |g| > 0 by {
        assert g[0] == if |paragraphs| <= per then paragraphs else paragraphs[..per];
      }
    }
  }

  /** The word count of every chunk. */
  function WordCounts(chunks: seq<string>): (w: seq<nat>)
    ensures |w| == |chunks|
    ensures forall i :: 0 <= i < |chunks| ==> w[i] == |Words(chunks[i])|
  {
    seq(|chunks|, i requires 0 <= i < |chunks| => |Words(chunks[i])|)
  }

  /** The combined word count of chunks `i` and `i + 1`. */
  function PairWords(chunks: seq<string>, i: nat): nat
    requires i + 1 < |chunks|
  {
    |Words(chunks[i])| + |Words(chunks[i + 1])|
  }

  /** The combined word count of every adjacent pair of chunks. */
  function PairCounts(chunks: seq<string>): (w: seq<nat>)
    requires |chunks| >= 2
    ensures |w| == |chunks| - 1
    ensures forall i :: 0 <= i < |chunks| - 1 ==> w[i] == PairWords(chunks, i)
  {
    seq(|chunks| - 1, i requires 0 <= i < |chunks| - 1 => PairWords(chunks, i))
  }

  /** `max(range(len(xs)), key=...)`: the first position of a largest value. */
  function FirstArgMax(xs: seq<nat>): (m: nat)
    requires |xs| > 0
    ensures m < |xs|
    ensures forall j :: 0 <= j < |xs| ==> xs[j] <= xs[m]
    ensures forall j :: 0 <= j < m ==> xs[j] < xs[m]
    decreases |xs|
  {
    if |xs| == 1 then 0
    else
      var m := FirstArgMax(xs[..|xs| - 1]);
      assert forall j :: 0 <= j < |xs| - 1 ==> xs[j] == xs[..|xs| - 1][j];
      if xs[|xs| - 1] > xs[m] then |xs| - 1 else m
  }

  /** `min(range(len(xs)), key=...)`: the first position of a smallest value. */
  function FirstArgMin(xs: seq<nat>): (m: nat)
    requires |xs| > 0
    ensures m < |xs|
    ensures forall j :: 0 <= j < |xs| ==> xs[m] <= xs[j]
    ensures forall j :: 0 <= j < m ==> xs[m] < xs[j]
    decreases |xs|
  {
    if |xs| == 1 then 0
    else
      var m := FirstArgMin(xs[..|xs| - 1]);
      assert forall j :: 0 <= j < |xs| - 1 ==> xs[j] == xs[..|xs| - 1][j];
      if xs[|xs| - 1] < xs[m] then |xs| - 1 else m
  }

  /** The two halves of a chunk's sentences, cut at `len(sentences) // 2` and each joined by spaces. */
  function Halves(sentences: seq<string>): seq<string>
    requires |sentences| >= 2
  {
    var mid := |sentences| / 2;
    [Join(" ", sentences[..mid]), Join(" ", sentences[mid..])]
  }

  /** The halves, read with a space between them, are the sentences read with spaces. */
  lemma {:induction false} HalvesJoin(sentences: seq<string>)
    requires |sentences| >= 2
    ensures Join(" ", Halves(sentences)) == Join(" ", sentences)
  {
    var mid := |sentences| / 2;
    assert sentences == sentences[..mid] + sentences[mid..];
    JoinConcat(" ", sentences[..mid], sentences[mid..]);
    assert Halves(sentences) == [Join(" ", sentences[..mid])] + [Join(" ", sentences[mid..])];
    JoinConcat(" ", [Join(" ", sentences[..mid])], [Join(" ", sentences[mid..])]);
  }

  /** The chunk the split loop picks: the first with the most words. */
  function Largest(chunks: seq<string>): nat
    requires |chunks| > 0
  {
    FirstArgMax(WordCounts(chunks))
  }

  /** One pass of the split loop, once it has found at least two sentences in the largest chunk. */
  function SplitOnce(chunks: seq<string>, tokenize: string -> seq<string>): seq<string>
    requires |chunks| > 0 && |tokenize(chunks[Largest(chunks)])| >= 2
  {
    var idx := Largest(chunks);
    chunks[..idx] + Halves(tokenize(chunks[idx])) + chunks[idx + 1..]
  }

  /**
    A split replaces the first chunk with the most words by the two halves of
    its sentences and leaves every other chunk where it was.
   */
  lemma {:induction false} SplitOnceSpec(chunks: seq<string>, tokenize: string -> seq<string>)
    requires |chunks| > 0 && |tokenize(chunks[Largest(chunks)])| >= 2
    ensures var idx := Largest(chunks);
      var r := SplitOnce(chunks, tokenize);
      && |r| == |chunks| + 1
      && (forall j :: 0 <= j < |chunks| ==> |Words(chunks[j])| <= |Words(chunks[idx])|)
      && (forall j :: 0 <= j < idx ==> |Words(chunks[j])| < |Words(chunks[idx])|)
      && r[..idx] == chunks[..idx]
      && r[idx + 2..] == chunks[idx + 1..]
      && r[idx] + " " + r[idx + 1] == Join(" ", tokenize(chunks[idx]))
  {
    var idx := Largest(chunks);
    var s := tokenize(chunks[idx]);
    var r := SplitOnce(chunks, tokenize);
    HalvesJoin(s);
    assert [r[idx], r[idx + 1]] == Halves(s);
    assert Join(" ", [r[idx], r[idx + 1]]) == r[idx] + " " + r[idx + 1] by {
      assert [r[idx], r[idx + 1]][..1] == [r[idx]];
    }
  }

  /** The list after the split loop. */
  function SplitAll(chunks: seq<string>, n: int, tokenize: string -> seq<string>): seq<string>
    requires |chunks| > 0 || |chunks| >= n
    decreases n - |chunks|
  {
    if |chunks| >= n then chunks
    else if |tokenize(chunks[Largest(chunks)])| <= 1 then chunks
    else SplitAll(SplitOnce(chunks, tokenize), n, tokenize)
  }

  /**
    The split loop never shrinks the list and never takes it past `n`; it
    leaves a list shorter than `n` only when the largest chunk has at most one
    sentence.
   */
  lemma {:induction false} SplitAllSpec(chunks: seq<string>, n: int, tokenize: string -> seq<string>)
    requires |chunks| > 0 || |chunks| >= n
    ensures var r := SplitAll(chunks, n, tokenize);
      && |r| >= |chunks|
      && (|chunks| <= n ==> |r| <= n)
      && (|chunks| >= n ==> r == chunks)
      && (|chunks| > 0 ==> |r| > 0)
      && (|r| < n ==> |r| > 0 && |tokenize(r[Largest(r)])| <= 1)
    decreases n - |chunks|
  {
    if |chunks| < n && |tokenize(chunks[Largest(chunks)])| > 1 {
      SplitOnceSpec(chunks, tokenize);
      SplitAllSpec(SplitOnce(chunks, tokenize), n, tokenize);
    }
  }

  /** The first adjacent pair with the fewest words between them, as the merge loop picks it. */
  function Lightest(chunks: seq<string>): nat
    requires |chunks| >= 2
  {
    FirstArgMin(PairCounts(chunks))
  }

  /** One pass of the merge loop. */
  function MergeOnce(chunks: seq<string>): seq<string>
    requires |chunks| >= 2
  {
    var idx := Lightest(chunks);
    chunks[..idx] + [chunks[idx] + "\n\n" + chunks[idx + 1]] + chunks[idx + 2..]
  }

  /**
    A merge joins, with "\n\n", the first adjacent pair with the fewest words
    between them, leaves every other chunk where it was and keeps the text
    the chunks read as when joined by "\n\n".
   */
  lemma {:induction false} MergeOnceSpec(chunks: seq<string>)
    requires |chunks| >= 2
    ensures var idx := Lightest(chunks);
      var r := MergeOnce(chunks);
      && |r| == |chunks| - 1
      && (forall j :: 0 <= j < |chunks| - 1 ==> PairWords(chunks, idx) <= PairWords(chunks, j))
      && (forall j :: 0 <= j < idx ==> PairWords(chunks, idx) < PairWords(chunks, j))
      && r[..idx] == chunks[..idx]
      && r[idx] == chunks[idx] + "\n\n" + chunks[idx + 1]
      && r[idx + 1..] == chunks[idx + 2..]
      && Join("\n\n", r) == Join("\n\n", chunks)
  {
    JoinMergeAt("\n\n", chunks, Lightest(chunks));
  }

  /** Merging parts `idx` and `idx + 1` with the separator leaves the join unchanged. */
  lemma {:induction false} JoinMergeAt(sep: string, parts: seq<string>, idx: nat)
    requires idx + 1 < |parts|
    ensures Join(sep, parts[..idx] + [parts[idx] + sep + parts[idx + 1]] + parts[idx + 2..]) == Join(sep, parts)
  {
    var head := parts[..idx + 2];
    var tail := parts[idx + 2..];
    var merged := head[..idx] + [head[idx] + sep + head[idx + 1]];
    assert parts == head + tail;
    assert parts[..idx] + [parts[idx] + sep + parts[idx + 1]] + parts[idx + 2..] == merged + tail;
    JoinMergeLast(sep, head);
    if |tail| > 0 {
      JoinConcat(sep, head, tail);
      JoinConcat(sep, merged, tail);
    } else {
      assert merged + tail == merged && head + tail == head;
    }
  }

  /** The list after the merge loop. */
  function MergeAll(chunks: seq<string>, n: int): seq<string>
    requires n >= 1 || |chunks| <= n
    decreases |chunks|
  {
    if |chunks| <= n then chunks else MergeAll(MergeOnce(chunks), n)
  }

  /** The merge loop leaves `min(len, n)` chunks and keeps the text the chunks read as when joined by "\n\n". */
  lemma {:induction false} MergeAllSpec(chunks: seq<string>, n: int)
    requires n >= 1 || |chunks| <= n
    ensures var r := MergeAll(chunks, n);
      && |r| == (if |chunks| <= n then |chunks| else n)
      && Join("\n\n", r) == Join("\n\n", chunks)
      && (|chunks| <= n ==> r == chunks)
    decreases |chunks|
  {
    if |chunks| > n {
      MergeOnceSpec(chunks);
      MergeAllSpec(MergeOnce(chunks), n);
    }
  }

  /** A call `paragraph_based_chunk(text, n)` that does not raise: `n >= 1` with some paragraph, or `n == 0` with none. */
  predicate ParagraphCallable(text: string, n: int)
  {
    (n >= 1 && |Paragraphs(text)| > 0) || (n == 0 && |Paragraphs(text)| == 0)
  }

  /** What `paragraph_based_chunk(text, n)` returns. */
  function ParagraphChunks(text: string, n: int, tokenize: string -> seq<string>): seq<string>
    requires ParagraphCallable(text, n)
  {
    var initial := InitialChunks(Paragraphs(text), n);
    InitialChunksSpec(Paragraphs(text), n);
    var split := SplitAll(initial, n, tokenize);
    SplitAllSpec(initial, n, tokenize);
    MergeAll(split, n)
  }

  /**
    `paragraph_based_chunk` returns at most `n` chunks, and exactly `n`
    unless the split loop stopped early because the largest chunk had at
    most one sentence.
   */
  lemma {:induction false} ParagraphChunksCount(text: string, n: int, tokenize: string -> seq<string>)
    requires ParagraphCallable(text, n)
    ensures var r := ParagraphChunks(text, n, tokenize);
      && |r| <= n
      && (|r| < n ==> |r| > 0 && |tokenize(r[Largest(r)])| <= 1)
  {
    var initial := InitialChunks(Paragraphs(text), n);
    InitialChunksSpec(Paragraphs(text), n);
    var split := SplitAll(initial, n, tokenize);
    SplitAllSpec(initial, n, tokenize);
    MergeAllSpec(split, n);
  }

  /** `paragraph_based_chunk`: group the paragraphs, split the largest chunk, merge the lightest pair. */
  method ParagraphBasedChunk(text: string, n: int, tokenize: string -> seq<string>) returns (chunks: seq<string>)
    requires ParagraphCallable(text, n)
    ensures chunks == ParagraphChunks(text, n, tokenize)
  {
    var paragraphs := Paragraphs(text);
    var total := |paragraphs|;
    if total <= n {
      chunks := paragraphs;
    } else {
      chunks := GroupParagraphs(paragraphs, if total / n < 1 then 1 else total / n);
    }
    assert chunks == InitialChunks(paragraphs, n);
    InitialChunksSpec(paragraphs, n);
    chunks := SplitLargest(chunks, n, tokenize);
    SplitAllSpec(InitialChunks(paragraphs, n), n, tokenize);
    chunks := MergeLightest(chunks, n);
  }

  /** The split loop: while there are fewer than `n` chunks, halve the largest one, unless it has at most one sentence. */
  method SplitLargest(initial: seq<string>, n: int, tokenize: string -> seq<string>) returns (chunks: seq<string>)
    requires |initial| > 0 || |initial| >= n
    ensures chunks == SplitAll(initial, n, tokenize)
  {
    chunks := initial;
    while |chunks| < n
      invariant |chunks| > 0 || |chunks| >= n
      invariant SplitAll(chunks, n, tokenize) == SplitAll(initial, n, tokenize)
      decreases n - |chunks|
    {
      var idx := FirstArgMax(WordCounts(chunks));
      var sentences := tokenize(chunks[idx]);
      if |sentences| <= 1 {
        break;
      }
      var mid := |sentences| / 2;
      var left := Join(" ", sentences[..mid]);
      var right := Join(" ", sentences[mid..]);
      assert chunks[..idx] + [left, right] + chunks[idx + 1..] == SplitOnce(chunks, tokenize);
      chunks := chunks[..idx] + [left, right] + chunks[idx + 1..];
    }
  }

  /** The merge loop: while there are more than `n` chunks, join the lightest adjacent pair with "\n\n". */
  method MergeLightest(split: seq<string>, n: int) returns (chunks: seq<string>)
    requires n >= 1 || |split| <= n
    ensures chunks == MergeAll(split, n)
  {
    chunks := split;
    while |chunks| > n
      invariant MergeAll(chunks, n) == MergeAll(split, n)
      decreases |chunks|
    {
      var idx := FirstArgMin(PairCounts(chunks));
      var merged := chunks[idx] + "\n\n" + chunks[idx + 1];
      assert chunks[..idx] + [merged] + chunks[idx + 2..] == MergeOnce(chunks);
      chunks := chunks[..idx] + [merged] + chunks[idx + 2..];
    }
  }

  /** Closing a full open group moves its joined text from the pending groups to the chunks. */
  lemma {:induction false} CloseGroup(chunks: seq<string>, current: seq<string>, tail: seq<string>, per: nat)
    requires per > 0 && |current| == per
    ensures chunks + JoinEach("\n\n", Groups(current + tail, per))
         == (chunks + [Join("\n\n", current)]) + JoinEach("\n\n", Groups(tail, per))
  {
    var rest := JoinEach("\n\n", Groups(tail, per));
    GroupsFull(current, tail, per);
    JoinEachConcat("\n\n", [current], Groups(tail, per));
    assert JoinEach("\n\n", Groups(current + tail, per)) == [Join("\n\n", current)] + rest;
    AppendAssoc(chunks, [Join("\n\n", current)], rest);
  }

  /** The grouping loop: append each paragraph to the open chunk and close it once it holds `per` paragraphs. */
  method GroupParagraphs(paragraphs: seq<string>, per: nat) returns (chunks: seq<string>)
    requires per >= 1
    ensures chunks == JoinEach("\n\n", Groups(paragraphs, per))
  {
    chunks := [];
    var current: seq<string> := [];
    assert current + paragraphs[0..] == paragraphs;
    for i := 0 to |paragraphs|
      invariant |current| < per
      invariant chunks + JoinEach("\n\n", Groups(current + paragraphs[i..], per)) == JoinEach("\n\n", Groups(paragraphs, per))
    {
      assert current + paragraphs[i..] == (current + [paragraphs[i]]) + paragraphs[i + 1..];
      current := current + [paragraphs[i]];
      if |current| >= per {
        CloseGroup(chunks, current, paragraphs[i + 1..], per);
        chunks := chunks + [Join("\n\n", current)];
        current := [];
        assert current + paragraphs[i + 1..] == paragraphs[i + 1..];
      }
    }
    if |current| > 0 {
      assert current + paragraphs[|paragraphs|..] == current;
      assert Groups(current, per) == [current];
      chunks := chunks + [Join("\n\n", current)];
    } else {
      assert current + paragraphs[|paragraphs|..] == [];
    }
  }
}
