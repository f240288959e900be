/** Splitting an uploaded text into bounded chunks (`internal/documents/service.go`). */
module Chunking {
  import opened Text
  import opened Values

  const DEFAULT_CHUNK_SIZE: int := 800

  // Words

  ghost predicate IsWord(s: string) {
    s != "" && forall c :: c in s ==> !IsSpace(c)
  }

  /** How far the word at the start of the text reaches. */
  function WordEnd(s: string): (n: nat)
    ensures n <= |s| && (n < |s| ==> IsSpace(s[n])) && forall k :: 0 <= k < n ==> !IsSpace(s[k])
  {
    if s == "" || IsSpace(s[0]) then 0 else 1 + WordEnd(s[1..])
  }

  /** The words of a text, as Go's strings.Fields finds them. */
  function Words(s: string): (words: seq<string>)
    ensures forall w :: w in words ==> IsWord(w)
    decreases |s|
  {
    if s == "" then []
    else if IsSpace(s[0]) then Words(s[1..])
    else [s[..WordEnd(s)]] + Words(s[WordEnd(s)..])
  }

  lemma {:induction false} WordEndsAtSpace(word: string, rest: string)
    requires (forall c :: c in word ==> !IsSpace(c)) && (rest == "" || IsSpace(rest[0]))
    ensures WordEnd(word + rest) == |word|
  {
    if word == "" {
      assert word + rest == rest;
    } else {
      assert !IsSpace(word[0]) by {
        assert word[0] in word;
      }
      assert (word + rest)[1..] == word[1..] + rest;
      WordEndsAtSpace(word[1..], rest);
    }
  }

  lemma WordFirst(word: string, rest: string)
    requires IsWord(word) && (rest == "" || IsSpace(rest[0]))
    ensures Words(word + rest) == [word] + Words(rest)
  {
    WordEndsAtSpace(word, rest);
    assert word[0] in word;
    assert (word + rest)[..|word|] == word && (word + rest)[|word|..] == rest;
  }

  lemma WordsFromFirst(s: string)
    requires s != "" && !IsSpace(s[0])
    ensures var n := WordEnd(s);
            IsWord(s[..n]) && Words(s) == [s[..n]] + Words(s[n..])
            && |s[n..]| < |s| && (s[n..] == "" || IsSpace(s[n..][0]))
  {}

  lemma WordsFromSpace(c: char, s: string)
    requires IsSpace(c)
    ensures Words([c] + s) == Words(s)
  {
    assert ([c] + s)[1..] == s;
  }

  /** White space anywhere separates the words on its two sides. */
  lemma {:induction false} SpaceSeparates(a: string, c: char, b: string)
    requires IsSpace(c)
    ensures Words(a + [c] + b) == Words(a) + Words(b)
    decreases |a|
  {
    hide Words;
    if a == "" {
      assert Words(a) == [] by {
        WordsOfNothing();
      }
      assert a + [c] + b == [c] + b;
      WordsFromSpace(c, b);
    } else if IsSpace(a[0]) {
      assert a + [c] + b == [a[0]] + (a[1..] + [c] + b) && a == [a[0]] + a[1..];
      WordsFromSpace(a[0], a[1..]);
      WordsFromSpace(a[0], a[1..] + [c] + b);
      SpaceSeparates(a[1..], c, b);
    } else {
      WordsFromFirst(a);
      var word, tail := a[..WordEnd(a)], a[WordEnd(a)..];
      var rest := tail + [c] + b;
      hide IsWord, WordEnd;
      assert a + [c] + b == word + rest;
      assert rest[0] == if tail == "" then c else tail[0];
      WordFirst(word, rest);
      SpaceSeparates(tail, c, b);
      assert [word] + (Words(tail) + Words(b)) == ([word] + Words(tail)) + Words(b);
    }
  }

  lemma WordsOfNothing()
    ensures Words("") == []
  {}

  /** White space separates words wherever it stands, and what holds none is a word: that says what the words are. */
  lemma WordsMean(a: string, c: char, b: string)
    requires c in WHITE
    ensures Words(a + [c] + b) == Words(a) + Words(b)
    ensures a != "" && (forall x :: x in a ==> x !in WHITE) ==> Words(a) == [a]
    ensures Words("") == []
  {
    SpaceSeparates(a, c, b);
    if a != "" && forall x :: x in a ==> x !in WHITE {
      WordFirst(a, "");
      assert a + "" == a;
    }
  }

  /** strings.ReplaceAll(s, "\r\n", "\n"). */
  function ReplaceLineEnds(s: string): string {
    if s == "" then ""
    else if |s| >= 2 && s[0] == '\r' && s[1] == '\n' then "\n" + ReplaceLineEnds(s[2..])
    else [s[0]] + ReplaceLineEnds(s[1..])
  }

  lemma {:induction false} ReplaceKeepsWord(word: string, rest: string)
    requires forall c :: c in word ==> !IsSpace(c)
    ensures ReplaceLineEnds(word + rest) == word + ReplaceLineEnds(rest)
  {
    if word == "" {
      assert word + rest == rest;
    } else {
      assert !IsSpace(word[0]) by {
        assert word[0] in word;
      }
      assert (word + rest)[1..] == word[1..] + rest;
      ReplaceKeepsWord(word[1..], rest);
    }
  }

  /** Replacing line ends before splitting changes no word. */
  lemma {:induction false} LineEndsAreSpace(s: string)
    ensures Words(ReplaceLineEnds(s)) == Words(s)
    decreases |s|
  {
    if s == "" {
    } else if |s| >= 2 && s[0] == '\r' && s[1] == '\n' {
      assert ReplaceLineEnds(s)[1..] == ReplaceLineEnds(s[2..]);
      assert Words(s) == Words(s[1..]) == Words(s[1..][1..]) && s[1..][1..] == s[2..];
      LineEndsAreSpace(s[2..]);
    } else if IsSpace(s[0]) {
      assert ReplaceLineEnds(s)[1..] == ReplaceLineEnds(s[1..]);
      LineEndsAreSpace(s[1..]);
    } else {
      var n := WordEnd(s);
      var word, rest := s[..n], s[n..];
      assert s == word + rest;
      ReplaceKeepsWord(word, rest);
      WordFirst(word, ReplaceLineEnds(rest));
      LineEndsAreSpace(rest);
    }
  }

  // Groups of words

  /** The words with one space between neighbours. */
  function Join(words: seq<string>): string {
    if words == [] then ""
    else if |words| == 1 then words[0]
    else Join(words[..|words| - 1]) + " " + words[|words| - 1]
  }

  lemma {:induction false} WordsOfJoin(words: seq<string>)
    requires forall w :: w in words ==> IsWord(w)
    ensures Words(Join(words)) == words
  {
    if |words| == 1 {
      WordFirst(words[0], "");
      assert words[0] + "" == words[0];
    } else if |words| > 1 {
      var front, last := words[..|words| - 1], words[|words| - 1];
      WordsOfJoin(front);
      SpaceSeparates(Join(front), ' ', last);
      WordFirst(last, "");
      assert last + "" == last && front + [last] == words;
    }
  }

  function Flatten(groups: seq<seq<string>>): seq<string> {
    if groups == [] then [] else Flatten(groups[..|groups| - 1]) + groups[|groups| - 1]
  }

  lemma FlattenAppend(groups: seq<seq<string>>, group: seq<string>)
    ensures Flatten(groups + [group]) == Flatten(groups) + group
  {
    assert (groups + [group])[..|groups|] == groups;
  }

  /** A chunk may exceed the limit only when it is a single word that does. */
  predicate Fits(group: seq<string>, limit: int) {
    group != [] && (|group| == 1 || |Join(group)| <= limit)
  }

  /** A way to cut the words into consecutive chunks that respects the limit. */
  predicate IsSplit(groups: seq<seq<string>>, words: seq<string>, limit: int) {
    Flatten(groups) == words && forall k :: 0 <= k < |groups| ==> Fits(groups[k], limit)
  }

  lemma IsSplitAppend(groups: seq<seq<string>>, words: seq<string>, group: seq<string>, limit: int)
    requires IsSplit(groups, words, limit) && Fits(group, limit)
    ensures IsSplit(groups + [group], words + group, limit)
  {
    FlattenAppend(groups, group);
  }

  // Optimality: the greedy loop stays ahead of every other split of the words read so far

  /** Every split of the words has more than `n` chunks, or `n` with at least `size` characters in the last. */
  ghost predicate Ahead(words: seq<string>, limit: int, n: nat, size: nat) {
    forall other {:trigger IsSplit(other, words, limit)} :: IsSplit(other, words, limit) ==>
      |other| > n || (|other| == n && n > 0 && |Join(other[n - 1])| >= size)
  }

  lemma LastOff<T>(before: seq<T>, last: seq<T>, items: seq<T>, item: T)
    requires before + last == items + [item] && last != []
    ensures last[|last| - 1] == item && before + last[..|last| - 1] == items
  {
    var all := before + last;
    assert all[|all| - 1] == last[|last| - 1];
    assert items == all[..|all| - 1];
  }

  /** Taking the last word away from a split leaves a split. */
  lemma LastWordOff(
    other: seq<seq<string>>, words: seq<string>, word: string, limit: int)
    returns (front: seq<seq<string>>)
    requires IsSplit(other, words + [word], limit)
    ensures other != [] && IsSplit(front, words, limit)
    ensures var last := other[|other| - 1];
            || (|Join(last)| >= |word| && |front| == |other| - 1)
            || (|Join(last)| <= limit && |front| == |other| && front != []
                && |Join(last)| == |Join(front[|front| - 1])| + 1 + |word|)
  {
    assert other != [];
    var k := |other| - 1;
    var before, last := other[..k], other[k];
    var m := |last| - 1;
    assert Fits(last, limit);
    LastOff(Flatten(before), last, words, word);
    if m == 0 {
      assert Flatten(before) + last[..m] == Flatten(before);
      front := before;
    } else {
      front := before + [last[..m]];
      assert Fits(last[..m], limit);
      IsSplitAppend(before, Flatten(before), last[..m], limit);
    }
  }

  lemma AheadFirst(word: string, limit: int)
    requires IsWord(word)
    ensures Ahead([word], limit, 1, |word|)
  {
    forall other | IsSplit(other, [word], limit)
      ensures |other| > 1 || (|other| == 1 && |Join(other[0])| >= |word|)
    {
      if |other| == 1 {
        assert other[..0] == [] && Flatten(other) == other[0];
      }
    }
  }

  lemma AheadSameChunk(words: seq<string>, word: string, limit: int, n: nat, size: nat)
    requires Ahead(words, limit, n, size)
    ensures n > 0 ==> Ahead(words + [word], limit, n, size + 1 + |word|)
  {
    hide Join, Flatten, Fits;
    if n > 0 {
      forall other | IsSplit(other, words + [word], limit)
        ensures |other| > n || (|other| == n && |Join(other[n - 1])| >= size + 1 + |word|)
      {
        var front := LastWordOff(other, words, word, limit);
      }
    }
  }

  lemma AheadNextChunk(words: seq<string>, word: string, limit: int, n: nat, size: nat)
    requires Ahead(words, limit, n, size)
    requires size + 1 + |word| > limit
    ensures Ahead(words + [word], limit, n + 1, |word|)
  {
    hide Join, Flatten, Fits;
    forall other | IsSplit(other, words + [word], limit)
      ensures |other| > n + 1 || (|other| == n + 1 && |Join(other[n])| >= |word|)
    {
      var front := LastWordOff(other, words, word, limit);
    }
  }

  // chunkText

  function Grouped(chunks: seq<string>): seq<seq<string>> {
    seq(|chunks|, k requires 0 <= k < |chunks| => Words(chunks[k]))
  }

  /** Each chunk is its words with single spaces, and stopped only because the next word did not fit. */
  ghost predicate Greedy(chunks: seq<string>, limit: int) {
    && (forall k :: 0 <= k < |chunks| ==> chunks[k] != "" && chunks[k] == Join(Words(chunks[k])))
    && (forall k :: 0 < k < |chunks| ==>
          Words(chunks[k]) != [] && |chunks[k - 1]| + 1 + |Words(chunks[k])[0]| > limit)
  }

  lemma GreedyAppend(chunks: seq<string>, chunk: string, limit: int)
    requires Greedy(chunks, limit) && chunk != "" && Words(chunk) != [] && chunk == Join(Words(chunk))
    requires chunks != [] ==> |chunks[|chunks| - 1]| + 1 + |Words(chunk)[0]| > limit
    ensures Greedy(chunks + [chunk], limit) && Grouped(chunks + [chunk]) == Grouped(chunks) + [Words(chunk)]
  {
    hide Words, Join;
  }

  /** Where the loop stands once it has read some words: finished chunks, and the words of the one being built. */
  ghost predicate Progress(read: seq<string>, chunks: seq<string>, current: seq<string>, limit: int) {
    && current != [] && (forall w :: w in current ==> IsWord(w))
    && Greedy(chunks, limit)
    && (chunks != [] ==> |chunks[|chunks| - 1]| + 1 + |current[0]| > limit)
    && IsSplit(Grouped(chunks) + [current], read, limit)
    && Ahead(read, limit, |chunks| + 1, |Join(current)|)
  }

  lemma ProgressFirst(word: string, limit: int)
    requires IsWord(word)
    ensures Progress([word], [], [word], limit)
  {
    AheadFirst(word, limit);
    IsSplitAppend([], [], [word], limit);
    assert Grouped([]) == [] && [] + [[word]] == [[word]] && [] + [word] == [word];
  }

  lemma JoinOneMore(current: seq<string>, word: string)
    requires current != []
    ensures Join(current + [word]) == Join(current) + " " + word
  {
    assert (current + [word])[..|current|] == current;
  }

  lemma LastGroupGrows(groups: seq<seq<string>>, current: seq<string>, read: seq<string>, word: string, limit: int)
    requires IsSplit(groups + [current], read, limit) && Fits(current + [word], limit)
    ensures IsSplit(groups + [current + [word]], read + [word], limit)
  {
    var all := groups + [current];
    assert forall k :: 0 <= k < |groups| ==> groups[k] == all[k];
    FlattenAppend(groups, current);
    FlattenAppend(groups, current + [word]);
    hide Fits, Flatten;
    assert Flatten(groups) + (current + [word]) == read + [word];
  }

  lemma ProgressSameChunk(read: seq<string>, chunks: seq<string>, current: seq<string>, word: string, limit: int)
    requires Progress(read, chunks, current, limit) && IsWord(word) && |Join(current)| + 1 + |word| <= limit
    ensures Progress(read + [word], chunks, current + [word], limit)
  {
    hide Ahead, Greedy, Grouped, Flatten, Join, IsWord, IsSplit;
    AheadSameChunk(read, word, limit, |chunks| + 1, |Join(current)|);
    JoinOneMore(current, word);
    LastGroupGrows(Grouped(chunks), current, read, word, limit);
  }

  /** The chunk being built, once finished, keeps the chunks greedy. */
  lemma ProgressFlush(read: seq<string>, chunks: seq<string>, current: seq<string>, limit: int)
    requires Progress(read, chunks, current, limit)
    ensures var all := chunks + [Join(current)];
            Greedy(all, limit) && Grouped(all) == Grouped(chunks) + [current] && IsSplit(Grouped(all), read, limit)
  {
    WordsOfJoin(current);
    assert Join(current) != "" by {
      assert Words("") == [];
    }
    GreedyAppend(chunks, Join(current), limit);
  }

  lemma ProgressNextChunk(read: seq<string>, chunks: seq<string>, current: seq<string>, word: string, limit: int)
    requires Progress(read, chunks, current, limit) && IsWord(word) && |Join(current)| + 1 + |word| > limit
    ensures Progress(read + [word], chunks + [Join(current)], [word], limit)
  {
    assert Join([word]) == word;
    hide Ahead, Greedy, Grouped, Flatten, IsSplit, IsWord, Join;
    AheadNextChunk(read, word, limit, |chunks| + 1, |Join(current)|);
    ProgressFlush(read, chunks, current, limit);
    IsSplitAppend(Grouped(chunks + [Join(current)]), read, [word], limit);
  }

  /**
   * The greedy loop loses no word, respects the limit, packs each chunk as full as the next word allows,
   * and no other split into chunks within the limit has fewer chunks.
   */
  lemma {:induction false} JoinSpaced(words: seq<string>)
    requires forall w :: w in words ==> IsWord(w)
    ensures forall c :: c in Join(words) && c in WHITE ==> c == ' '
  {
    if words != [] {
      JoinSpaced(words[..|words| - 1]);
      assert IsWord(words[|words| - 1]);
    }
  }

  /** A chunk holds no white space but blanks, and none at all if it is over the limit. */
  ghost predicate Spaced(chunk: string, limit: int) {
    && (forall c :: c in chunk && c in WHITE ==> c == ' ')
    && (|chunk| <= limit || forall c :: c in chunk ==> c !in WHITE)
  }

  lemma ChunksSpaced(chunks: seq<string>, words: seq<string>, limit: int)
    requires Greedy(chunks, limit) && IsSplit(Grouped(chunks), words, limit)
    ensures forall k :: 0 <= k < |chunks| ==> chunks[k] != "" && Spaced(chunks[k], limit)
  {
    forall k | 0 <= k < |chunks| ensures chunks[k] != "" && Spaced(chunks[k], limit) {
      var group := Words(chunks[k]);
      assert Grouped(chunks)[k] == group && Fits(group, limit);
      hide Words;
      JoinSpaced(group);
      if |group| == 1 {
        assert IsWord(group[0]);
      }
    }
  }

  method ChunkText(content: string, maxChunkSize: int) returns (chunks: seq<string>)
    ensures IsSplit(Grouped(chunks), Words(content), maxChunkSize)
    ensures Greedy(chunks, maxChunkSize)
    ensures forall other :: IsSplit(other, Words(content), maxChunkSize) ==> |chunks| <= |other|
    ensures forall k :: 0 <= k < |chunks| ==> chunks[k] != "" && Spaced(chunks[k], maxChunkSize)
  {
    hide Spaced, Progress, Greedy, Flatten, Fits, IsSplit, Ahead, Words;
    var words := Words(ReplaceLineEnds(content));
    LineEndsAreSpace(content);
    chunks := [];
    if |words| == 0 {
      NothingToChunk(maxChunkSize);
      return;
    }
    var builder := "";
    ghost var current: seq<string> := [];
    for i := 0 to |words|
      invariant i == 0 ==> chunks == [] && builder == ""
      invariant i > 0 ==> Progress(words[..i], chunks, current, maxChunkSize) && builder == Join(current) != ""
    {
      var word := words[i];
      assert words[..i + 1] == words[..i] + [word] && word in words;
      if |builder| == 0 {
        builder := builder + word;
        current := [word];
        assert words[..i + 1] == [word] && builder == word;
        ProgressFirst(word, maxChunkSize);
        continue;
      }
      ghost var before := current;
      if |builder| + 1 + |word| > maxChunkSize {
        ProgressNextChunk(words[..i], chunks, before, word, maxChunkSize);
        current := [word];
        chunks := chunks + [builder];
        builder := "";
      } else {
        ProgressSameChunk(words[..i], chunks, before, word, maxChunkSize);
        CurrentNonempty(words[..i], chunks, before, maxChunkSize);
        JoinOneMore(before, word);
        current := before + [word];
      }
      if |builder| > 0 {
        builder := builder + " ";
      }
      builder := builder + word;
      assert current == [word] ==> builder == word;
    }
    if |builder| > 0 {
      ProgressFlush(words[..|words|], chunks, current, maxChunkSize);
      ProgressIsBest(words[..|words|], chunks, current, maxChunkSize);
      chunks := chunks + [builder];
      ChunksSpaced(chunks, words[..|words|], maxChunkSize);
    }
    assert words[..|words|] == words;
  }

  lemma NothingToChunk(limit: int)
    ensures IsSplit(Grouped([]), [], limit) && Greedy([], limit)
  {}

  lemma CurrentNonempty(read: seq<string>, chunks: seq<string>, current: seq<string>, limit: int)
    requires Progress(read, chunks, current, limit)
    ensures current != []
  {}

  lemma ProgressIsBest(read: seq<string>, chunks: seq<string>, current: seq<string>, limit: int)
    requires Progress(read, chunks, current, limit)
    ensures forall other :: IsSplit(other, read, limit) ==> |chunks| + 1 <= |other|
  {
    hide Greedy, Grouped, Flatten, IsSplit, IsWord, Join;
  }

  // buildChunks

  datatype Chunk =
    Chunk(id: string, documentID: string, tenantID: string, chunkIndex: nat, content: string, tokenEstimate: nat)

  predicate IsText(contentType: string) {
    "text/" <= contentType
  }

  function Contents(chunks: seq<Chunk>): seq<string> {
    seq(|chunks|, k requires 0 <= k < |chunks| => chunks[k].content)
  }

  function Tokens(chunks: seq<Chunk>): nat {
    if chunks == [] then 0 else Tokens(chunks[..|chunks| - 1]) + chunks[|chunks| - 1].tokenEstimate
  }

  /** Estimates taken chunk by chunk add up to the words of all the chunks. */
  lemma {:induction false} TokensAreWords(chunks: seq<Chunk>)
    requires forall k :: 0 <= k < |chunks| ==> chunks[k].tokenEstimate == |Words(chunks[k].content)|
    ensures Tokens(chunks) == |Flatten(Grouped(Contents(chunks)))|
  {
    if chunks != [] {
      hide Words;
      var front := chunks[..|chunks| - 1];
      TokensAreWords(front);
      assert Grouped(Contents(chunks))[..|front|] == Grouped(Contents(front));
    }
  }

  /** The stored chunks are the fewest that hold the text, numbered from 0, with a token for every word. */
  method BuildChunks(
    documentID: string, tenantID: string, contentType: string, content: string, newID: nat -> Result<string, string>)
    returns (r: Result<seq<Chunk>, string>)
    ensures !("text/" <= contentType) ==> r == Ok([])
    ensures "text/" <= contentType && r.Ok? ==>
              forall k :: 0 <= k < |r.value| ==> r.value[k].content != "" && Spaced(r.value[k].content, 800)
    ensures "text/" <= contentType && r.Ok? ==>
              && IsSplit(Grouped(Contents(r.value)), Words(content), DEFAULT_CHUNK_SIZE)
              && Greedy(Contents(r.value), DEFAULT_CHUNK_SIZE)
              && (forall other :: IsSplit(other, Words(content), DEFAULT_CHUNK_SIZE) ==> |r.value| <= |other|)
    ensures r.Ok? ==> forall k :: 0 <= k < |r.value| ==>
              var c := r.value[k];
              c.chunkIndex == k && Ok(c.id) == newID(k) && c.documentID == documentID && c.tenantID == tenantID
    ensures "text/" <= contentType && r.Ok? ==> Tokens(r.value) == |Words(content)|
    ensures r.Err? ==> exists k: nat :: newID(k) == Err(r.error) && k < |Words(content)|
  {
    hide Spaced, Words, Greedy, Flatten, Fits;
    if !IsText(contentType) {
      return Ok([]);
    }
    var parts := ChunkText(content, DEFAULT_CHUNK_SIZE);
    ghost var singles := NoMoreChunksThanWords(Words(content), DEFAULT_CHUNK_SIZE);
    var chunks: seq<Chunk> := [];
    for index := 0 to |parts|
      invariant |chunks| == index
      invariant forall k :: 0 <= k < index ==>
                  var c := chunks[k];
                  && c.chunkIndex == k && Ok(c.id) == newID(k) && c.documentID == documentID && c.tenantID == tenantID
                  && c.content == parts[k] && c.tokenEstimate == |Words(c.content)|
    {
      var id := newID(index);
      if id.Err? {
        return Err(id.error);
      }
      chunks := chunks + [Chunk(id.value, documentID, tenantID, index, parts[index], |Words(parts[index])|)];
    }
    assert Contents(chunks) == parts;
    TokensAreWords(chunks);
    return Ok(chunks);
  }

  /** One chunk a word is always a split, so the greedy loop never makes more chunks than words. */
  lemma NoMoreChunksThanWords(words: seq<string>, limit: int) returns (singles: seq<seq<string>>)
    ensures IsSplit(singles, words, limit) && |singles| == |words|
  {
    if words == [] {
      singles := [];
    } else {
      var k := |words| - 1;
      var front := NoMoreChunksThanWords(words[..k], limit);
      IsSplitAppend(front, words[..k], [words[k]], limit);
      singles := front + [[words[k]]];
      assert words[..k] + [words[k]] == words;
    }
  }
}
