/**
 * The quiz builder: a word-translation question, a part-of-speech question and a
 * phrase-match question, built from the content dictionaries. Every random draw of
 * the bot is a parameter here (a `Draws` value), and the contracts hold for all of them:
 * `random.choice` is an index, `random.sample` a list of distinct indices, and
 * `random.shuffle` the sequence of swap positions its Fisher-Yates loop draws.
 */
module Builder {
  import opened Wrappers
  import opened QuizModel

  // ---------------- Draws ----------------

  /** Draws for the word-translation question: the word, the sampled distractors, the fillers, the shuffle. */
  datatype WordDraw = WordDraw(pick: nat, sample: seq<nat>, fillers: seq<nat>, swaps: seq<nat>)
  /** Draws for the part-of-speech question: the word and the shuffle. */
  datatype PosDraw = PosDraw(pick: nat, swaps: seq<nat>)
  /** Draws for the phrase question: the topic, the phrase in it, the sampled distractors, the shuffle. */
  datatype PhraseDraw = PhraseDraw(topic: nat, phrase: nat, sample: seq<nat>, swaps: seq<nat>)
  datatype Draws = Draws(translation: WordDraw, pos: PosDraw, phrase: PhraseDraw)

  /** A possible outcome of `random.sample(population, min(3, n))` as positions in the population. */
  predicate ValidSample(sample: seq<nat>, n: nat) {
    && |sample| == Min(3, n)
    && (forall i | 0 <= i < |sample| :: sample[i] < n)
    && (forall i, j | 0 <= i < j < |sample| :: sample[i] != sample[j])
  }

  /**
   * A possible outcome of the draws of `random.shuffle` on a list of length n: for
   * i = n-1 down to 1 it swaps position i with a position drawn from 0..i; swaps[k]
   * is the draw made when i = |swaps| - k.
   */
  predicate ValidSwaps(swaps: seq<nat>, n: nat) {
    |swaps| + 1 == n && forall k | 0 <= k < |swaps| :: swaps[k] <= |swaps| - k
  }

  // ---------------- List helpers ----------------

  predicate NoDuplicates<T(==)>(s: seq<T>) {
    forall i, j | 0 <= i < j < |s| :: s[i] != s[j]
  }

  /** `list(dict.fromkeys(s))`: the distinct elements of s, first occurrences kept in order. */
  function Dedup<T(==)>(s: seq<T>): (r: seq<T>)
    ensures NoDuplicates(r)
    ensures forall x | x in s :: x in r
    ensures forall x | x in r :: x in s
    ensures |r| <= |s|
    ensures |s| > 0 ==> |r| > 0 && r[0] == s[0]
  {
    if s == [] then []
    else
      var init := Dedup(s[..|s| - 1]);
      var last := s[|s| - 1];
      assert s == s[..|s| - 1] + [last];
      if last in init then init else init + [last]
  }

  /** An element of a list without duplicates occurs in it exactly once. */
  lemma {:induction false} OccursOnce<T>(s: seq<T>, x: T)
    requires NoDuplicates(s) && x in s
    ensures multiset(s)[x] == 1
  {
    assert s == [s[0]] + s[1..];
    if s[0] == x {
      assert x !in s[1..] by {
        assert forall j | 1 <= j < |s| :: s[j] == s[1..][j - 1];
      }
    } else {
      assert NoDuplicates(s[1..]) by {
        assert forall j | 1 <= j < |s| :: s[j] == s[1..][j - 1];
      }
      OccursOnce(s[1..], x);
    }
  }

  /** `s.index(x)` where x occurs in s, and |s| where it does not. */
  function IndexOf<T(==)>(s: seq<T>, x: T): (i: nat)
    ensures i <= |s|
    ensures i < |s| <==> x in s
    ensures i < |s| ==> s[i] == x
    ensures forall j | 0 <= j < i :: s[j] != x
  {
    if s == [] then 0
    else if s[0] == x then 0
    else
      var i := 1 + IndexOf(s[1..], x);
      assert forall j | 1 <= j < |s| :: s[j] == s[1..][j - 1];
      i
  }

  /** Appending an element does not move the first occurrence of anything already present. */
  lemma {:induction false} IndexOfAppend<T>(a: seq<T>, y: T, x: T)
    ensures x in a ==> IndexOf(a + [y], x) == IndexOf(a, x)
    ensures x !in a && x == y ==> IndexOf(a + [y], x) == |a|
  {
    if a != [] {
      assert (a + [y])[0] == a[0] && (a + [y])[1..] == a[1..] + [y];
      IndexOfAppend(a[1..], y, x);
    }
  }

  /** `dict.fromkeys` keeps the distinct elements in the order of their first occurrences. */
  lemma {:induction false} DedupOrder<T>(s: seq<T>)
    ensures forall i, j | 0 <= i < j < |Dedup(s)| :: IndexOf(s, Dedup(s)[i]) < IndexOf(s, Dedup(s)[j])
  {
    if s != [] {
      var a := s[..|s| - 1];
      var y := s[|s| - 1];
      assert s == a + [y];
      DedupOrder(a);
      var init := Dedup(a);
      var r := Dedup(s);
      forall x | x in init
        ensures IndexOf(s, x) == IndexOf(a, x) < |a|
      {
        IndexOfAppend(a, y, x);
      }
      if y !in init {
        assert r == init + [y];
        IndexOfAppend(a, y, y);
      }
      forall i, j | 0 <= i < j < |r|
        ensures IndexOf(s, r[i]) < IndexOf(s, r[j])
      {
        assert r[i] in init;
        if j < |init| {
          assert r[j] in init;
        }
      }
    }
  }

  /** The elements of `population` at the sampled positions. */
  function Pick<T>(population: seq<T>, sample: seq<nat>): (r: seq<T>)
    requires forall i | 0 <= i < |sample| :: sample[i] < |population|
  {
    seq(|sample|, i requires 0 <= i < |sample| => population[sample[i]])
  }

  function Swap<T>(s: seq<T>, i: nat, j: nat): (r: seq<T>)
    requires i < |s| && j < |s|
  {
    s[i := s[j]][j := s[i]]
  }

  /** The list `random.shuffle` leaves after drawing `swaps`. */
  function FisherYates<T>(s: seq<T>, swaps: seq<nat>): (r: seq<T>)
    requires |swaps| < |s|
    requires forall k | 0 <= k < |swaps| :: swaps[k] <= |swaps| - k
    decreases |swaps|
  {
    if swaps == [] then s
    else FisherYates(Swap(s, |swaps|, swaps[0]), swaps[1..])
  }

  /** Shuffling only reorders: the result is a permutation of the input. */
  lemma {:induction false} FisherYatesPermutes<T>(s: seq<T>, swaps: seq<nat>)
    requires |swaps| < |s|
    requires forall k | 0 <= k < |swaps| :: swaps[k] <= |swaps| - k
    ensures |FisherYates(s, swaps)| == |s|
    ensures multiset(FisherYates(s, swaps)) == multiset(s)
    decreases |swaps|
  {
    if swaps != [] {
      var t := Swap(s, |swaps|, swaps[0]);
      assert multiset(t) == multiset(s) by {
        var i, j := |swaps|, swaps[0];
        if i != j {
          assert s[i := s[j]] == s[..i] + [s[j]] + s[i + 1..];
          assert s == s[..i] + [s[i]] + s[i + 1..];
        }
      }
      FisherYatesPermutes(t, swaps[1..]);
    }
  }

  /** `random.shuffle(a)`: Fisher-Yates in place, with the positions it draws given as `swaps`. */
  method Shuffle<T>(a: array<T>, swaps: seq<nat>)
    requires ValidSwaps(swaps, a.Length)
    modifies a
    ensures a[..] == FisherYates(old(a[..]), swaps)
    ensures multiset(a[..]) == multiset(old(a[..]))
  {
    var k := 0;
    while k < |swaps|
      invariant 0 <= k <= |swaps|
      invariant forall m | 0 <= m < |swaps[k..]| :: swaps[k..][m] <= |swaps[k..]| - m
      invariant FisherYates(a[..], swaps[k..]) == FisherYates(old(a[..]), swaps)
    {
      var i, j := |swaps| - k, swaps[k];
      ghost var before := a[..];
      a[i], a[j] := a[j], a[i];
      assert a[..] == Swap(before, i, j);
      assert swaps[k..][1..] == swaps[k + 1..];
      k := k + 1;
    }
    assert swaps[k..] == [];
    FisherYatesPermutes(old(a[..]), swaps);
  }

  // ---------------- Word translation question ----------------

  /** `info.get("translation", word)` */
  function TranslationOf(e: WordEntry): string {
    e.info.translation.GetOr(e.key)
  }

  /** The translations of every entry whose key is not `key`, in dictionary order. */
  function OtherTranslations(words: seq<WordEntry>, key: string): (r: seq<string>)
    ensures |r| <= |words|
  {
    if words == [] then []
    else (if words[0].key != key then [TranslationOf(words[0])] else []) + OtherTranslations(words[1..], key)
  }

  /** Every entry with a different key contributes its translation, and only such entries do. */
  lemma {:induction false} OtherTranslationsMembers(words: seq<WordEntry>, key: string)
    ensures forall e | e in words && e.key != key :: TranslationOf(e) in OtherTranslations(words, key)
    ensures forall x | x in OtherTranslations(words, key) :: exists e | e in words :: e.key != key && TranslationOf(e) == x
  {
    if words != [] {
      OtherTranslationsMembers(words[1..], key);
      assert forall e | e in words :: e == words[0] || e in words[1..];
    }
  }

  predicate ValidWordDraw(words: seq<WordEntry>, d: WordDraw) {
    && d.pick < |words|
    && ValidSample(d.sample, |OtherTranslations(words, words[d.pick].key)|)
    && |d.fillers| >= 3
    && (forall i | 0 <= i < |d.fillers| :: d.fillers[i] < |words|)
    && ValidSwaps(d.swaps, 4)
  }

  /** The correct translation followed by the sampled distractors, before de-duplication. */
  function TranslationCandidates(words: seq<WordEntry>, d: WordDraw): (r: seq<string>)
    requires ValidWordDraw(words, d)
    ensures 1 <= |r| <= 4 && r[0] == TranslationOf(words[d.pick])
    ensures |r| == 1 + Min(3, |OtherTranslations(words, words[d.pick].key)|)
    ensures forall i | 1 <= i < |r| :: r[i] in OtherTranslations(words, words[d.pick].key)
  {
    [TranslationOf(words[d.pick])] + Pick(OtherTranslations(words, words[d.pick].key), d.sample)
  }

  /** The keys the first k filler draws name. */
  function FillerKeys(words: seq<WordEntry>, fillers: seq<nat>, k: nat): (r: seq<string>)
    requires k <= |fillers|
    requires forall i | 0 <= i < |fillers| :: fillers[i] < |words|
  {
    seq(k, i requires 0 <= i < k => words[fillers[i]].key)
  }

  /**
   * A word-translation question made from draw d: the picked word in the prompt, four
   * options that are the padded pool in some order, and the picked word's translation
   * at the correct index.
   */
  predicate IsWordQuestion(words: seq<WordEntry>, d: WordDraw, q: Question)
    requires ValidWordDraw(words, d)
  {
    && q.kind == WordTranslation
    && q.prompt == "Translate this word: *" + words[d.pick].key + "*"
    && WellFormed(q)
    && q.options[q.correctIndex] == TranslationOf(words[d.pick])
    && multiset(q.options) == multiset(WordOptionPool(words, d))
    && q.options == FisherYates(WordOptionPool(words, d), d.swaps)
    && q.correctIndex == IndexOf(q.options, TranslationOf(words[d.pick]))
  }

  /**
   * The word-translation question: its options are the distinct candidates padded with
   * word keys up to four (padding may repeat an option), shuffled; the correct index
   * points at the picked word's translation.
   */
  method BuildWordTranslation(words: seq<WordEntry>, d: WordDraw) returns (q: Question)
    requires ValidWordDraw(words, d)
    ensures IsWordQuestion(words, d, q)
  {
    var entry := words[d.pick];
    var correct := TranslationOf(entry);
    var allTrans := OtherTranslations(words, entry.key);
    var options := [correct] + Pick(allTrans, d.sample);
    options := Dedup(options);
    options := options[..Min(4, |options|)];
    ghost var distinct := options;
    assert distinct == Dedup(TranslationCandidates(words, d));
    options := PadWithKeys(options, words, d.fillers);
    ghost var padded := options;
    assert padded[0] == correct;
    assert padded == WordOptionPool(words, d);
    var a := new string[4](i requires 0 <= i < |options| => options[i]);
    assert a[..] == padded;
    Shuffle(a, d.swaps);
    options := a[..];
    assert correct in multiset(padded);
    assert correct in options;
    assert multiset(options) == multiset(padded);
    var at := IndexOf(options, correct);
    q := Question(WordTranslation, "Translate this word: *" + entry.key + "*", options, if at < |options| then at else 0);
  }

  /** The distinct candidates followed by the filler keys that pad them to four options. */
  function WordOptionPool(words: seq<WordEntry>, d: WordDraw): (r: seq<string>)
    requires ValidWordDraw(words, d)
    ensures |r| == 4 && r[0] == TranslationOf(words[d.pick])
    ensures forall x | x in TranslationCandidates(words, d) :: x in r
    ensures forall x | x in r :: x in TranslationCandidates(words, d) || exists e | e in words :: e.key == x
  {
    var distinct := Dedup(TranslationCandidates(words, d));
    distinct + FillerKeys(words, d.fillers, 4 - |distinct|)
  }

  /** `while len(options) < 4: options.append(random.choice(list(words.keys())))` */
  method PadWithKeys(distinct: seq<string>, words: seq<WordEntry>, fillers: seq<nat>) returns (options: seq<string>)
    requires 1 <= |distinct| <= 4 && |fillers| >= 3
    requires forall i | 0 <= i < |fillers| :: fillers[i] < |words|
    ensures options == distinct + FillerKeys(words, fillers, 4 - |distinct|)
    ensures |options| == 4
  {
    options := distinct;
    var k := 0;
    while |options| < 4
      invariant |distinct| <= |options| <= 4 && k == |options| - |distinct|
      invariant options == distinct + FillerKeys(words, fillers, k)
      decreases 4 - |options|
    {
      options := options + [words[fillers[k]].key];
      k := k + 1;
      assert FillerKeys(words, fillers, k) == FillerKeys(words, fillers, k - 1) + [words[fillers[k - 1]].key];
    }
  }

  // ---------------- Part-of-speech question ----------------

  /** The fixed option pool of the part-of-speech question. */
  const PartsOfSpeech: seq<string> := ["noun", "verb", "adjective", "adverb"]

  /** `info.get("part_of_speech", "noun")` */
  function RecordedPartOfSpeech(e: WordEntry): string {
    e.info.partOfSpeech.GetOr("noun")
  }

  predicate ValidPosDraw(words: seq<WordEntry>, d: PosDraw) {
    d.pick < |words| && ValidSwaps(d.swaps, 4)
  }

  /**
   * A part-of-speech question made from draw d: the picked word in the prompt, the four
   * parts of speech in some order, and the correct index at the recorded part of speech,
   * or 0 when that is not one of the four.
   */
  predicate IsPosQuestion(words: seq<WordEntry>, d: PosDraw, q: Question)
    requires ValidPosDraw(words, d)
  {
    && q.kind == PartOfSpeech
    && q.prompt == "What is the part of speech of *" + words[d.pick].key + "*?"
    && WellFormed(q)
    && multiset(q.options) == multiset(PartsOfSpeech)
    && (RecordedPartOfSpeech(words[d.pick]) in PartsOfSpeech ==> q.options[q.correctIndex] == RecordedPartOfSpeech(words[d.pick]))
    && (RecordedPartOfSpeech(words[d.pick]) !in PartsOfSpeech ==> q.correctIndex == 0)
    && q.options == FisherYates(PartsOfSpeech, d.swaps)
  }

  /**
   * The part-of-speech question: the four parts of speech in shuffled order; the correct
   * index points at the recorded part of speech, or is 0 when that is not one of the four.
   */
  method BuildPartOfSpeech(words: seq<WordEntry>, d: PosDraw) returns (q: Question)
    requires ValidPosDraw(words, d)
    ensures IsPosQuestion(words, d, q)
  {
    var entry := words[d.pick];
    var correct := RecordedPartOfSpeech(entry);
    var a := new string[4](i requires 0 <= i < |PartsOfSpeech| => PartsOfSpeech[i]);
    assert a[..] == PartsOfSpeech;
    Shuffle(a, d.swaps);
    var options := a[..];
    assert correct in PartsOfSpeech <==> correct in multiset(options);
    var at := IndexOf(options, correct);
    q := Question(PartOfSpeech, "What is the part of speech of *" + entry.key + "*?", options, if at < |options| then at else 0);
  }

  // ---------------- Phrase-match question ----------------

  /** The filler that pads a phrase question to four options. */
  const Dash: string := "\U{2014}"

  function Dashes(k: nat): (r: seq<string>) {
    seq(k, _ => Dash)
  }

  /** The elements of `s` other than `x`. */
  function Without(s: seq<string>, x: string): (r: seq<string>)
    ensures forall y :: y in r <==> y in s && y != x
  {
    if s == [] then [] else (if s[0] != x then [s[0]] else []) + Without(s[1..], x)
  }

  /** Every phrase of every topic (the chosen topic included) that differs from `phrase`. */
  function OtherPhrases(topics: seq<Topic>, phrase: string): (r: seq<string>)
    ensures phrase !in r
  {
    if topics == [] then [] else Without(topics[0].phrases, phrase) + OtherPhrases(topics[1..], phrase)
  }

  /** Every phrase of every topic other than `phrase` is listed, and nothing else is. */
  lemma {:induction false} OtherPhrasesMembers(topics: seq<Topic>, phrase: string)
    ensures forall t, x | t in topics && x in t.phrases && x != phrase :: x in OtherPhrases(topics, phrase)
    ensures forall x | x in OtherPhrases(topics, phrase) :: exists t | t in topics :: x in t.phrases
  {
    if topics != [] {
      OtherPhrasesMembers(topics[1..], phrase);
      assert forall t | t in topics :: t == topics[0] || t in topics[1..];
    }
  }

  predicate ValidPhraseDraw(topics: seq<Topic>, d: PhraseDraw) {
    && d.topic < |topics|
    && ValidSwaps(d.swaps, 4)
    && (topics[d.topic].phrases != [] ==>
          && d.phrase < |topics[d.topic].phrases|
          && ValidSample(d.sample, |OtherPhrases(topics, topics[d.topic].phrases[d.phrase])|))
  }

  function ChosenPhrase(topics: seq<Topic>, d: PhraseDraw): string
    requires d.topic < |topics| && d.phrase < |topics[d.topic].phrases|
  {
    topics[d.topic].phrases[d.phrase]
  }

  /** The chosen phrase followed by the sampled distractors, before de-duplication. */
  function PhraseCandidates(topics: seq<Topic>, d: PhraseDraw): (r: seq<string>)
    requires ValidPhraseDraw(topics, d) && topics[d.topic].phrases != []
    ensures 1 <= |r| <= 4 && r[0] == ChosenPhrase(topics, d)
    ensures |r| == 1 + Min(3, |OtherPhrases(topics, ChosenPhrase(topics, d))|)
    ensures forall i | 1 <= i < |r| :: r[i] in OtherPhrases(topics, ChosenPhrase(topics, d))
  {
    var phrase := ChosenPhrase(topics, d);
    [phrase] + Pick(OtherPhrases(topics, phrase), d.sample)
  }

  /**
   * A phrase-match question made from draw d: the chosen topic in the prompt, four options
   * that are the padded pool in some order, and the chosen phrase at the correct index.
   */
  predicate IsPhraseQuestion(topics: seq<Topic>, d: PhraseDraw, q: Question)
    requires ValidPhraseDraw(topics, d) && topics[d.topic].phrases != []
  {
    && q.kind == PhraseMatch
    && q.prompt == "Which phrase belongs to topic *" + topics[d.topic].name + "*?"
    && WellFormed(q)
    && q.options[q.correctIndex] == ChosenPhrase(topics, d)
    && multiset(q.options) == multiset(PhraseOptionPool(topics, d))
    && q.options == FisherYates(PhraseOptionPool(topics, d), d.swaps)
    && q.correctIndex == IndexOf(q.options, ChosenPhrase(topics, d))
  }

  /**
   * The phrase-match question. Picking a phrase from a topic with no phrases fails
   * (`random.choice` raises on an empty list): the result is then None. Otherwise the
   * options are the distinct candidates padded with dashes up to four, shuffled, and
   * the correct index points at the chosen phrase.
   */
  method BuildPhraseMatch(topics: seq<Topic>, d: PhraseDraw) returns (q: Option<Question>)
    requires ValidPhraseDraw(topics, d)
    ensures q.None? <==> topics[d.topic].phrases == []
    ensures q.Some? ==> IsPhraseQuestion(topics, d, q.value)
  {
    var topic := topics[d.topic];
    if topic.phrases == [] {
      return None;
    }
    var phrase := topic.phrases[d.phrase];
    var allPhrases := OtherPhrases(topics, phrase);
    var options := [phrase] + Pick(allPhrases, d.sample);
    options := Dedup(options);
    options := options[..Min(4, |options|)];
    ghost var distinct := options;
    assert distinct == Dedup(PhraseCandidates(topics, d));
    options := PadWithDashes(options);
    ghost var padded := options;
    assert padded[0] == phrase;
    assert padded == PhraseOptionPool(topics, d);
    var a := new string[4](i requires 0 <= i < |options| => options[i]);
    assert a[..] == padded;
    Shuffle(a, d.swaps);
    options := a[..];
    assert phrase in multiset(padded);
    assert phrase in options;
    assert multiset(options) == multiset(padded);
    var at := IndexOf(options, phrase);
    q := Some(Question(PhraseMatch, "Which phrase belongs to topic *" + topic.name + "*?", options, at));
  }

  /** The distinct candidates followed by the dashes that pad them to four options. */
  function PhraseOptionPool(topics: seq<Topic>, d: PhraseDraw): (r: seq<string>)
    requires ValidPhraseDraw(topics, d) && topics[d.topic].phrases != []
    ensures |r| == 4 && r[0] == ChosenPhrase(topics, d)
    ensures forall x | x in r :: x in PhraseCandidates(topics, d) || x == Dash
    ensures forall x | x in PhraseCandidates(topics, d) :: x in r
  {
    var distinct := Dedup(PhraseCandidates(topics, d));
    distinct + Dashes(4 - |distinct|)
  }

  /**
   * Unless the chosen phrase is itself the dash, the phrase question offers the correct
   * phrase exactly once: distractors never equal it and the padding is dashes.
   */
  lemma PhraseAnswerUnique(topics: seq<Topic>, d: PhraseDraw)
    requires ValidPhraseDraw(topics, d) && topics[d.topic].phrases != []
    requires ChosenPhrase(topics, d) != Dash
    ensures multiset(PhraseOptionPool(topics, d))[ChosenPhrase(topics, d)] == 1
  {
    var phrase := ChosenPhrase(topics, d);
    var distinct := Dedup(PhraseCandidates(topics, d));
    OccursOnce(distinct, phrase);
    assert multiset(Dashes(4 - |distinct|))[phrase] == 0;
    assert PhraseOptionPool(topics, d) == distinct + Dashes(4 - |distinct|);
  }

  /** `while len(options) < 4: options.append("\U{2014}")` */
  method PadWithDashes(distinct: seq<string>) returns (options: seq<string>)
    requires |distinct| <= 4
    ensures options == distinct + Dashes(4 - |distinct|)
  {
    options := distinct;
    while |options| < 4
      invariant |distinct| <= |options| <= 4
      invariant options == distinct + Dashes(|options| - |distinct|)
      decreases 4 - |options|
    {
      options := options + [Dash];
      assert Dashes(|options| - |distinct|) == Dashes(|options| - 1 - |distinct|) + [Dash];
    }
  }

  // ---------------- The whole quiz ----------------

  predicate ValidDraws(content: Content, draws: Draws) {
    && (content.words != [] ==>
          ValidWordDraw(content.words, draws.translation) && ValidPosDraw(content.words, draws.pos))
    && (content.phrases != [] ==> ValidPhraseDraw(content.phrases, draws.phrase))
  }

  /** The phrase question's draw lands on a topic with no phrases, so building fails. */
  predicate PhraseDrawFails(content: Content, draws: Draws)
    requires ValidDraws(content, draws)
  {
    content.phrases != [] && content.phrases[draws.phrase.topic].phrases == []
  }

  /** The kinds of question the content supports, in the order they are built. */
  function ExpectedKinds(content: Content): seq<Kind> {
    (if content.words != [] then [WordTranslation, PartOfSpeech] else [])
    + (if content.phrases != [] then [PhraseMatch] else [])
  }

  /** A quiz built from `content`: one well-formed question per supported kind, in order. */
  predicate Built(content: Content, qs: seq<Question>) {
    && |qs| == |ExpectedKinds(content)|
    && forall i | 0 <= i < |qs| :: qs[i].kind == ExpectedKinds(content)[i] && WellFormed(qs[i])
  }

  /**
   * The quiz `build_quiz_questions` makes from the draws: the questions `Built` describes,
   * each the one its own draw determines.
   */
  predicate BuiltFrom(content: Content, draws: Draws, qs: seq<Question>)
    requires ValidDraws(content, draws) && !PhraseDrawFails(content, draws)
  {
    && Built(content, qs)
    && (content.words != [] ==>
          IsWordQuestion(content.words, draws.translation, qs[0]) && IsPosQuestion(content.words, draws.pos, qs[1]))
    && (content.phrases != [] ==> IsPhraseQuestion(content.phrases, draws.phrase, qs[|qs| - 1]))
  }

  /**
   * The parts of the quiz put together: one question per supported kind, in order, with
   * each part's question at its own position.
   */
  lemma {:induction false} PartsBuilt(content: Content, translation: seq<Question>, pos: seq<Question>, phrase: seq<Question>)
    requires content.words == [] ==> translation == [] && pos == []
    requires content.words != [] ==>
      && |translation| == 1 && translation[0].kind == WordTranslation && WellFormed(translation[0])
      && |pos| == 1 && pos[0].kind == PartOfSpeech && WellFormed(pos[0])
    requires content.phrases == [] ==> phrase == []
    requires content.phrases != [] ==> |phrase| == 1 && phrase[0].kind == PhraseMatch && WellFormed(phrase[0])
    ensures Built(content, translation + pos + phrase)
    ensures content.words != [] ==> (translation + pos + phrase)[0] == translation[0] && (translation + pos + phrase)[1] == pos[0]
    ensures content.phrases != [] ==> (translation + pos + phrase)[|translation + pos + phrase| - 1] == phrase[0]
  {
    var qs := translation + pos + phrase;
    var kinds := ExpectedKinds(content);
    assert |qs| == |kinds|;
    forall i | 0 <= i < |qs|
      ensures qs[i].kind == kinds[i] && WellFormed(qs[i])
    {
      if i < |translation| {
        assert qs[i] == translation[0];
      } else if i < |translation| + |pos| {
        assert qs[i] == pos[0];
      } else {
        assert qs[i] == phrase[0];
      }
    }
  }

  /**
   * `build_quiz_questions`: at most three questions, the two word questions exactly when
   * there are words and the phrase question exactly when there are phrases; None when
   * picking the phrase fails.
   */
  method BuildQuizQuestions(content: Content, draws: Draws) returns (qs: Option<seq<Question>>)
    requires ValidDraws(content, draws)
    ensures qs.None? <==> PhraseDrawFails(content, draws)
    ensures qs.Some? ==> BuiltFrom(content, draws, qs.value) && |qs.value| <= 3
    ensures qs.Some? ==> (qs.value == [] <==> content.words == [] && content.phrases == [])
  {
    var translation: seq<Question> := [];
    if content.words != [] {
      var q := BuildWordTranslation(content.words, draws.translation);
      translation := [q];
    }
    var pos: seq<Question> := [];
    if content.words != [] {
      var q := BuildPartOfSpeech(content.words, draws.pos);
      pos := [q];
    }
    var phrase: seq<Question> := [];
    if content.phrases != [] {
      var q := BuildPhraseMatch(content.phrases, draws.phrase);
      if q.None? {
        return None;
      }
      phrase := [q.value];
    }
    PartsBuilt(content, translation, pos, phrase);
    return Some(translation + pos + phrase);
  }
}
