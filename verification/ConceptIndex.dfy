/**
 Concept mentions in speech (src/actors/elevation_voice.rs:34-106): the phrase index over concept labels
 and the greedy scanner that finds mentions in a transcript.

 Lower-casing, the alphanumeric test and the byte length of a word are those of the text library, taken
 as parameters; of them only that a space is no word character matters.
 */
module ConceptIndex {
  import opened Basics

  datatype Text = Text(lower: string -> string, isWord: char -> bool, size: string -> nat)

  const MAX_NGRAM: nat := 4

  type Words = seq<string>

  // ----- words --------------------------------------------------------------------------------

  /** Length of the word at the head of the text. */
  function HeadRun(isWord: char -> bool, s: string): (n: nat)
    ensures n <= |s| && (n > 0 <==> s != [] && isWord(s[0]))
  {
    if s == [] || !isWord(s[0]) then 0 else 1 + HeadRun(isWord, s[1..])
  }

  function Split(isWord: char -> bool, s: string): Words
    decreases |s|
  {
    if s == [] then []
    else if !isWord(s[0]) then Split(isWord, s[1..])
    else [s[..HeadRun(isWord, s)]] + Split(isWord, s[HeadRun(isWord, s)..])
  }

  function Normalise(t: Text, text: string): Words {
    Split(t.isWord, t.lower(text))
  }

  predicate IsWord(isWord: char -> bool, w: string) {
    w != "" && forall i :: 0 <= i < |w| ==> isWord(w[i])
  }

  ghost predicate AllWords(isWord: char -> bool, ws: Words) {
    forall i :: 0 <= i < |ws| ==> IsWord(isWord, ws[i])
  }

  function Join(ws: Words): string {
    if ws == [] then "" else if |ws| == 1 then ws[0] else ws[0] + " " + Join(ws[1..])
  }

  lemma {:induction false} HeadRunIsWord(isWord: char -> bool, s: string, i: nat)
    requires i < HeadRun(isWord, s)
    ensures isWord(s[i])
  {
    if i > 0 {
      HeadRunIsWord(isWord, s[1..], i - 1);
    }
  }

  lemma {:induction false} SplitGivesWords(isWord: char -> bool, s: string)
    ensures AllWords(isWord, Split(isWord, s))
    decreases |s|
  {
    if s != [] {
      if isWord(s[0]) {
        var n := HeadRun(isWord, s);
        forall i | 0 <= i < n ensures isWord(s[..n][i]) {
          HeadRunIsWord(isWord, s, i);
        }
        SplitGivesWords(isWord, s[n..]);
      } else {
        SplitGivesWords(isWord, s[1..]);
      }
    }
  }

  lemma {:induction false} HeadRunOfWord(isWord: char -> bool, w: string, rest: string)
    requires forall i :: 0 <= i < |w| ==> isWord(w[i])
    requires rest == [] || !isWord(rest[0])
    ensures HeadRun(isWord, w + rest) == |w|
  {
    if w == [] {
      assert w + rest == rest;
    } else {
      assert (w + rest)[1..] == w[1..] + rest;
      HeadRunOfWord(isWord, w[1..], rest);
    }
  }

  lemma SplitWord(isWord: char -> bool, w: string, rest: string)
    requires IsWord(isWord, w) && (rest == [] || !isWord(rest[0]))
    ensures Split(isWord, w + rest) == [w] + Split(isWord, rest)
  {
    HeadRunOfWord(isWord, w, rest);
    assert (w + rest)[..|w|] == w && (w + rest)[|w|..] == rest;
  }

  /** Joining words with spaces loses nothing: splitting gives the words back. */
  lemma {:induction false} SplitOfJoin(isWord: char -> bool, ws: Words)
    requires AllWords(isWord, ws) && !isWord(' ')
    ensures Split(isWord, Join(ws)) == ws
  {
    if |ws| == 1 {
      SplitWord(isWord, ws[0], "");
      assert ws[0] + "" == ws[0];
    } else if |ws| > 1 {
      var rest := " " + Join(ws[1..]);
      SplitOfJoin(isWord, ws[1..]);
      SplitWord(isWord, ws[0], rest);
      assert rest[1..] == Join(ws[1..]);
      assert ws[0] + rest == Join(ws);
      assert ws == [ws[0]] + ws[1..];
    }
  }

  lemma JoinInjective(isWord: char -> bool, a: Words, b: Words)
    requires AllWords(isWord, a) && AllWords(isWord, b) && !isWord(' ') && Join(a) == Join(b)
    ensures a == b
  {
    SplitOfJoin(isWord, a);
    SplitOfJoin(isWord, b);
  }

  /** The word characters of a text, in order. */
  function WordChars(isWord: char -> bool, s: string): string {
    if s == [] then []
    else (if isWord(s[0]) then [s[0]] else []) + WordChars(isWord, s[1..])
  }

  function Glued(ws: Words): string {
    if ws == [] then [] else ws[0] + Glued(ws[1..])
  }

  lemma {:induction false} WordCharsOfWord(isWord: char -> bool, w: string, rest: string)
    requires forall i :: 0 <= i < |w| ==> isWord(w[i])
    ensures WordChars(isWord, w + rest) == w + WordChars(isWord, rest)
  {
    if w == [] {
      assert w + rest == rest;
    } else {
      assert (w + rest)[1..] == w[1..] + rest;
      WordCharsOfWord(isWord, w[1..], rest);
      assert w == [w[0]] + w[1..];
    }
  }

  /** Splitting loses no word character and invents none. */
  lemma {:induction false} SplitKeepsWordChars(isWord: char -> bool, s: string)
    ensures Glued(Split(isWord, s)) == WordChars(isWord, s)
    decreases |s|
  {
    if s != [] {
      if isWord(s[0]) {
        var n := HeadRun(isWord, s);
        forall i | 0 <= i < n ensures isWord(s[..n][i]) {
          HeadRunIsWord(isWord, s, i);
        }
        assert s == s[..n] + s[n..];
        WordCharsOfWord(isWord, s[..n], s[n..]);
        SplitKeepsWordChars(isWord, s[n..]);
      } else {
        SplitKeepsWordChars(isWord, s[1..]);
      }
    }
  }

  lemma {:induction false} HeadRunStops(isWord: char -> bool, a: string, gap: char, b: string)
    requires !isWord(gap)
    ensures HeadRun(isWord, a + [gap] + b) == HeadRun(isWord, a)
  {
    if a == [] {
      assert (a + [gap] + b)[0] == gap;
    } else {
      assert (a + [gap] + b)[0] == a[0] && (a + [gap] + b)[1..] == a[1..] + [gap] + b;
      HeadRunStops(isWord, a[1..], gap, b);
    }
  }

  /** Every other character parts words, whatever stands around it. */
  lemma {:induction false} SplitAtGap(isWord: char -> bool, a: string, gap: char, b: string)
    requires !isWord(gap)
    ensures Split(isWord, a + [gap] + b) == Split(isWord, a) + Split(isWord, b)
    decreases |a|
  {
    var s := a + [gap] + b;
    if a == [] {
      assert s[0] == gap && s[1..] == b;
    } else if isWord(a[0]) {
      HeadRunStops(isWord, a, gap, b);
      var n := HeadRun(isWord, a);
      assert s[0] == a[0] && s[..n] == a[..n] && s[n..] == a[n..] + [gap] + b;
      SplitAtGap(isWord, a[n..], gap, b);
    } else {
      assert s[0] == a[0] && s[1..] == a[1..] + [gap] + b;
      SplitAtGap(isWord, a[1..], gap, b);
    }
  }

  // ----- the index ----------------------------------------------------------------------------

  type Phrases = map<string, string>

  /** Phrases of at most four words; a lone word must have at least four bytes. */
  predicate Indexable(t: Text, ws: Words) {
    1 <= |ws| <= MAX_NGRAM && (|ws| == 1 ==> t.size(ws[0]) >= 4)
  }

  /** The concept a phrase stands for: the last label that reads so. */
  function ConceptOf(t: Text, labels: seq<string>, ws: Words): Option<string> {
    if labels == [] || !Indexable(t, ws) then None
    else if Normalise(t, labels[|labels| - 1]) == ws then Some(labels[|labels| - 1])
    else ConceptOf(t, labels[..|labels| - 1], ws)
  }

  /** The label at `i` is the last one that reads `ws`. */
  predicate LastReading(t: Text, labels: seq<string>, ws: Words, i: nat)
    requires i < |labels|
  {
    Normalise(t, labels[i]) == ws && forall j :: i < j < |labels| ==> Normalise(t, labels[j]) != ws
  }

  /** A phrase of up to four words, not a lone one under four bytes, stands for the last label that reads so. */
  lemma {:induction false} ConceptOfIff(t: Text, labels: seq<string>, ws: Words, concept: string)
    ensures ConceptOf(t, labels, ws) == Some(concept) <==>
              && 1 <= |ws| <= 4 && !(|ws| == 1 && t.size(ws[0]) < 4)
              && exists i :: 0 <= i < |labels| && LastReading(t, labels, ws, i) && labels[i] == concept
  {
    if labels != [] {
      var n := |labels| - 1;
      ConceptOfIff(t, labels[..n], ws, concept);
      if Normalise(t, labels[n]) == ws {
        assert LastReading(t, labels, ws, n);
      } else {
        if i :| 0 <= i < n && LastReading(t, labels[..n], ws, i) && labels[..n][i] == concept {
          assert LastReading(t, labels, ws, i) && labels[i] == concept;
        }
        if i :| 0 <= i < |labels| && LastReading(t, labels, ws, i) && labels[i] == concept {
          assert LastReading(t, labels[..n], ws, i) && labels[..n][i] == concept;
        }
      }
    }
  }

  function Lookup(phrases: Phrases, ws: Words): Option<string> {
    if Join(ws) in phrases then Some(phrases[Join(ws)]) else None
  }

  /** The string-keyed index answers as if it compared word lists. */
  ghost predicate Represents(t: Text, phrases: Phrases, labels: seq<string>) {
    forall ws :: AllWords(t.isWord, ws) ==> Lookup(phrases, ws) == ConceptOf(t, labels, ws)
  }

  lemma RepresentsOneMore(t: Text, phrases: Phrases, labels: seq<string>, concept: string)
    requires !t.isWord(' ') && Represents(t, phrases, labels)
    ensures var words := Normalise(t, concept);
            Represents(t, if Indexable(t, words) then phrases[Join(words) := concept] else phrases, labels + [concept])
  {
    var words := Normalise(t, concept);
    SplitGivesWords(t.isWord, t.lower(concept));
    var phrases' := if Indexable(t, words) then phrases[Join(words) := concept] else phrases;
    forall ws | AllWords(t.isWord, ws) ensures Lookup(phrases', ws) == ConceptOf(t, labels + [concept], ws) {
      assert (labels + [concept])[..|labels|] == labels;
      assert Lookup(phrases, ws) == ConceptOf(t, labels, ws);
      if Join(ws) == Join(words) {
        JoinInjective(t.isWord, ws, words);
      }
    }
  }

  method Build(t: Text, labels: seq<string>) returns (phrases: Phrases)
    requires !t.isWord(' ')
    ensures Represents(t, phrases, labels)
  {
    phrases := map[];
    for i := 0 to |labels|
      invariant Represents(t, phrases, labels[..i])
    {
      RepresentsOneMore(t, phrases, labels[..i], labels[i]);
      assert labels[..i + 1] == labels[..i] + [labels[i]];
      var words := Normalise(t, labels[i]);
      if words == [] || |words| > MAX_NGRAM {
        continue;
      }
      if |words| == 1 && t.size(words[0]) < 4 {
        continue;
      }
      phrases := phrases[Join(words) := labels[i]];
    }
    assert labels[..|labels|] == labels;
  }

  // ----- maximal munch ------------------------------------------------------------------------

  /** A matched stretch of the transcript and the concept it names. */
  datatype Span = Span(start: nat, len: nat, concept: string)

  /** Which concept the `m` words from word `p` on name, for one transcript. */
  type Table = (nat, nat) -> Option<string>

  function TableOf(t: Text, labels: seq<string>, words: Words): Table {
    (p: nat, m: nat) => if p + m <= |words| then ConceptOf(t, labels, words[p..p + m]) else None
  }

  ghost predicate NoneStarts(at: Table, count: nat, p: nat) {
    forall m: nat :: 1 <= m <= count - p ==> at(p, m) == None
  }

  /** The span is the longest phrase that starts where it starts. */
  ghost predicate IsLongest(at: Table, count: nat, s: Span) {
    && 1 <= s.len <= count - s.start
    && at(s.start, s.len) == Some(s.concept)
    && forall m: nat :: s.len < m <= count - s.start ==> at(s.start, m) == None
  }

  predicate Covers(s: Span, p: nat) {
    s.start <= p < s.start + s.len
  }

  ghost predicate Uncovered(spans: seq<Span>, p: nat) {
    forall i :: 0 <= i < |spans| ==> !Covers(spans[i], p)
  }

  /**
   The spans of the transcript from word `lo` on: disjoint, left to right, each the longest at its start,
   and no phrase starts at a word that none covers.
   */
  ghost predicate IsMunch(at: Table, count: nat, lo: nat, spans: seq<Span>) {
    && (forall i :: 0 <= i < |spans| ==> lo <= spans[i].start && IsLongest(at, count, spans[i]))
    && (forall i, j :: 0 <= i < j < |spans| ==> spans[i].start + spans[i].len <= spans[j].start)
    && (forall p :: lo <= p < count && Uncovered(spans, p) ==> NoneStarts(at, count, p))
  }

  lemma IsMunchTail(at: Table, count: nat, lo: nat, spans: seq<Span>)
    requires IsMunch(at, count, lo, spans) && spans != []
    ensures IsMunch(at, count, spans[0].start + spans[0].len, spans[1..])
  {
    var hi := spans[0].start + spans[0].len;
    forall p | hi <= p < count && Uncovered(spans[1..], p) ensures NoneStarts(at, count, p) {
      forall i | 0 <= i < |spans| ensures !Covers(spans[i], p) {
        if i > 0 { assert spans[i] == spans[1..][i - 1]; }
      }
      assert Uncovered(spans, p);
    }
  }

  lemma FirstStartsNoLater(at: Table, count: nat, lo: nat, a: seq<Span>, b: seq<Span>)
    requires IsMunch(at, count, lo, a) && IsMunch(at, count, lo, b) && a != []
    ensures b != [] && b[0].start <= a[0].start
  {
    var p := a[0].start;
    assert IsLongest(at, count, a[0]) && !NoneStarts(at, count, p);
    assert !Uncovered(b, p);
    var i :| 0 <= i < |b| && Covers(b[i], p);
    assert i > 0 ==> b[0].start + b[0].len <= b[i].start;
  }

  /** There is only one way to munch maximally. */
  lemma {:induction false} MunchUnique(at: Table, count: nat, lo: nat, a: seq<Span>, b: seq<Span>)
    requires IsMunch(at, count, lo, a) && IsMunch(at, count, lo, b)
    ensures a == b
    decreases |a|
  {
    if a == [] {
      if b != [] { FirstStartsNoLater(at, count, lo, b, a); }
    } else {
      FirstStartsNoLater(at, count, lo, a, b);
      FirstStartsNoLater(at, count, lo, b, a);
      LongestUnique(at, count, a[0], b[0]);
      IsMunchTail(at, count, lo, a);
      IsMunchTail(at, count, lo, b);
      MunchUnique(at, count, a[0].start + a[0].len, a[1..], b[1..]);
      assert a == [a[0]] + a[1..] && b == [b[0]] + b[1..];
    }
  }

  lemma LongestUnique(at: Table, count: nat, a: Span, b: Span)
    requires IsLongest(at, count, a) && IsLongest(at, count, b) && a.start == b.start
    ensures a == b
  {
  }

  // ----- the scanner --------------------------------------------------------------------------

  /** The labels of the spans, each at its first mention only. */
  function Mentions(spans: seq<Span>): seq<string> {
    if spans == [] then []
    else
      var before := Mentions(spans[..|spans| - 1]);
      var concept := spans[|spans| - 1].concept;
      if concept in before then before else before + [concept]
  }

  /** Mentions are distinct, and they are the labels of the spans. */
  lemma {:induction false} MentionsDistinct(spans: seq<Span>)
    ensures NoDuplicates(Mentions(spans))
    ensures forall concept :: concept in Mentions(spans) <==>
              exists i :: 0 <= i < |spans| && spans[i].concept == concept
  {
    if spans != [] {
      var n := |spans| - 1;
      MentionsDistinct(spans[..n]);
      forall concept
        ensures concept in Mentions(spans) <==> exists i :: 0 <= i < |spans| && spans[i].concept == concept {
        if concept in Mentions(spans[..n]) {
          var i :| 0 <= i < n && spans[..n][i].concept == concept;
          assert spans[i].concept == concept;
        }
        if i :| 0 <= i < |spans| && spans[i].concept == concept {
          assert i < n ==> spans[..n][i].concept == concept;
        }
      }
    }
  }

  /** The span at `i` is the first to name its concept. */
  predicate FirstToName(spans: seq<Span>, i: nat)
    requires i < |spans|
  {
    forall j :: 0 <= j < i ==> spans[j].concept != spans[i].concept
  }

  /** Mentions come in the order in which their concepts are first named. */
  lemma {:induction false} MentionsInOrder(spans: seq<Span>) returns (at: seq<nat>)
    ensures |at| == |Mentions(spans)| && forall i, j :: 0 <= i < j < |at| ==> at[i] < at[j]
    ensures forall i :: 0 <= i < |at| ==>
              at[i] < |spans| && FirstToName(spans, at[i]) && Mentions(spans)[i] == spans[at[i]].concept
  {
    at := [];
    if spans != [] {
      var n := |spans| - 1;
      at := MentionsInOrder(spans[..n]);
      forall i | 0 <= i < |at| ensures FirstToName(spans, at[i]) {
        assert FirstToName(spans[..n], at[i]);
      }
      if spans[n].concept !in Mentions(spans[..n]) {
        MentionsDistinct(spans[..n]);
        forall j | 0 <= j < n ensures spans[j].concept != spans[n].concept {
          assert spans[..n][j].concept == spans[j].concept;
        }
        at := at + [n];
      }
    }
  }

  /** The index answers for the `n` words from word `i` on as the table does. */
  predicate AnswersAt(phrases: Phrases, words: Words, at: Table, i: nat, n: nat) {
    i + n <= |words| ==> at(i, n) == Lookup(phrases, words[i..i + n]) && (n > MAX_NGRAM ==> at(i, n) == None)
  }

  ghost predicate Answers(phrases: Phrases, words: Words, at: Table) {
    forall i: nat, n: nat {:trigger AnswersAt(phrases, words, at, i, n)} ::
      n >= 1 ==> AnswersAt(phrases, words, at, i, n)
  }

  lemma IndexAnswers(t: Text, labels: seq<string>, phrases: Phrases, words: Words)
    requires AllWords(t.isWord, words) && Represents(t, phrases, labels)
    ensures Answers(phrases, words, TableOf(t, labels, words))
  {
    forall i: nat, n: nat | n >= 1 ensures AnswersAt(phrases, words, TableOf(t, labels, words), i, n) {
      if i + n <= |words| {
        assert AllWords(t.isWord, words[i..i + n]);
      }
    }
  }

  /** Nothing of between `n` and `hi` words starts at word `i`. */
  ghost predicate NoneLonger(at: Table, i: nat, n: nat, hi: int) {
    forall m: nat :: n < m <= hi ==> at(i, m) == None
  }

  lemma TooLong(phrases: Phrases, words: Words, at: Table, i: nat)
    requires i < |words| && Answers(phrases, words, at)
    ensures NoneLonger(at, i, Min(MAX_NGRAM, |words| - i), |words| - i)
  {
    forall m: nat | Min(MAX_NGRAM, |words| - i) < m <= |words| - i ensures at(i, m) == None {
      assert AnswersAt(phrases, words, at, i, m);
    }
  }

  /** The longest phrase at word `i` and its concept, or nothing. */
  method MunchAt(ghost at: Table, phrases: Phrases, words: Words, i: nat) returns (n: nat, concept: string)
    requires i < |words| && Answers(phrases, words, at)
    ensures n <= |words| - i
    ensures n == 0 ==> NoneStarts(at, |words|, i)
    ensures n > 0 ==> IsLongest(at, |words|, Span(i, n, concept))
  {
    concept := "";
    TooLong(phrases, words, at, i);
    n := Min(MAX_NGRAM, |words| - i);
    while n > 0
      invariant n <= |words| - i && NoneLonger(at, i, n, |words| - i)
      decreases n
    {
      assert AnswersAt(phrases, words, at, i, n);
      if Join(words[i..i + n]) in phrases {
        concept := phrases[Join(words[i..i + n])];
        return;
      }
      n := n - 1;
    }
  }

  lemma MunchGrows(at: Table, count: nat, spans: seq<Span>, s: Span)
    requires IsLongest(at, count, s)
    requires IsMunchUpTo(at, count, spans, s.start)
    ensures IsMunchUpTo(at, count, spans + [s], s.start + s.len)
  {
    var all := spans + [s];
    forall p | 0 <= p < s.start + s.len && Uncovered(all, p) ensures NoneStarts(at, count, p) {
      assert !Covers(all[|spans|], p);
      forall i | 0 <= i < |spans| ensures !Covers(spans[i], p) {
        assert !Covers(all[i], p);
      }
      assert Uncovered(spans, p);
    }
  }

  /** The spans found among the first `hi` words. */
  ghost predicate IsMunchUpTo(at: Table, count: nat, spans: seq<Span>, hi: nat) {
    && (forall i :: 0 <= i < |spans| ==> IsLongest(at, count, spans[i]) && spans[i].start + spans[i].len <= hi)
    && (forall i, j :: 0 <= i < j < |spans| ==> spans[i].start + spans[i].len <= spans[j].start)
    && (forall p :: 0 <= p < hi && Uncovered(spans, p) ==> NoneStarts(at, count, p))
  }

  lemma MunchSkips(at: Table, count: nat, spans: seq<Span>, i: nat)
    requires IsMunchUpTo(at, count, spans, i) && NoneStarts(at, count, i)
    ensures IsMunchUpTo(at, count, spans, i + 1)
  {
  }

  lemma MunchEnds(at: Table, count: nat, spans: seq<Span>)
    requires IsMunchUpTo(at, count, spans, count)
    ensures IsMunch(at, count, 0, spans)
  {
  }

  lemma MentionsNext(spans: seq<Span>, s: Span)
    ensures Mentions(spans + [s])
            == if s.concept in Mentions(spans) then Mentions(spans) else Mentions(spans) + [s.concept]
  {
    assert (spans + [s])[..|spans|] == spans;
  }

  /** The spans so far and what was matched at word `i`, if anything. */
  function Longer(spans: seq<Span>, i: nat, matched: nat, concept: string): seq<Span> {
    if matched > 0 then spans + [Span(i, matched, concept)] else spans
  }

  lemma MunchGoesOn(at: Table, count: nat, spans: seq<Span>, i: nat, matched: nat, concept: string)
    requires IsMunchUpTo(at, count, spans, i)
    requires matched == 0 ==> NoneStarts(at, count, i)
    requires matched > 0 ==> IsLongest(at, count, Span(i, matched, concept))
    ensures IsMunchUpTo(at, count, Longer(spans, i, matched, concept), i + Max(matched, 1))
  {
    if matched > 0 {
      MunchGrows(at, count, spans, Span(i, matched, concept));
    } else {
      MunchSkips(at, count, spans, i);
    }
  }

  /** Take down the concept that was matched, if it is not there yet. */
  method TakeDown(found: seq<string>, i: nat, matched: nat, concept: string, ghost spans: seq<Span>)
    returns (found': seq<string>)
    requires found == Mentions(spans)
    ensures found' == Mentions(Longer(spans, i, matched, concept))
  {
    MentionsNext(spans, Span(i, matched, concept));
    found' := found;
    if matched > 0 && concept !in found {
      found' := found + [concept];
    }
  }

  /** One word position after the other, the longest phrase first. */
  method Scan(ghost at: Table, words: Words, phrases: Phrases) returns (found: seq<string>, ghost spans: seq<Span>)
    requires Answers(phrases, words, at)
    ensures IsMunchUpTo(at, |words|, spans, |words|) && found == Mentions(spans)
  {
    found, spans := [], [];
    var i := 0;
    while i < |words|
      invariant i <= |words|
      invariant IsMunchUpTo(at, |words|, spans, i)
      invariant found == Mentions(spans)
      decreases |words| - i
    {
      var matched, concept := MunchAt(at, phrases, words, i);
      MunchGoesOn(at, |words|, spans, i, matched, concept);
      found := TakeDown(found, i, matched, concept, spans);
      spans := Longer(spans, i, matched, concept);
      i := i + Max(matched, 1);
    }
  }

  /** The scanner finds the one maximal munch of the transcript, and reports its concepts once each, in order. */
  method HarvestMentions(t: Text, transcript: string, phrases: Phrases, ghost labels: seq<string>)
    returns (found: seq<string>)
    requires !t.isWord(' ') && Represents(t, phrases, labels)
    ensures var words := Normalise(t, transcript);
            exists spans :: IsMunch(TableOf(t, labels, words), |words|, 0, spans) && found == Mentions(spans)
    ensures NoDuplicates(found)
  {
    var words := Normalise(t, transcript);
    SplitGivesWords(t.isWord, t.lower(transcript));
    ghost var spans;
    IndexAnswers(t, labels, phrases, words);
    found, spans := Scan(TableOf(t, labels, words), words, phrases);
    MunchEnds(TableOf(t, labels, words), |words|, spans);
    MentionsDistinct(spans);
  }
}
