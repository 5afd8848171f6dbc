/**
 * The word-lookup helpers around the quiz engine: telling Uzbek input apart,
 * the case-insensitive dictionary lookup, and the layout of a word's card.
 */
module Lookup {
  import opened Wrappers
  import opened QuizModel

  // ---------------- Characters ----------------

  /** A character of the Cyrillic block U+0400..U+04FF. */
  predicate IsCyrillic(c: char) {
    '\U{0400}' <= c <= '\U{04FF}'
  }

  /** The characters Python's `str.split()` treats as whitespace. */
  predicate IsSpace(c: char) {
    || '\U{09}' <= c <= '\U{0D}'
    || '\U{1C}' <= c <= '\U{20}'
    || c == '\U{85}' || c == '\U{A0}' || c == '\U{1680}'
    || '\U{2000}' <= c <= '\U{200A}'
    || c == '\U{2028}' || c == '\U{2029}' || c == '\U{202F}' || c == '\U{205F}' || c == '\U{3000}'
  }

  function LowerChar(c: char): char {
    if 'A' <= c <= 'Z' then (c as int + 32) as char else c
  }

  /** `s.lower()` on ASCII letters. */
  function Lower(s: string): (r: string)
    ensures |r| == |s|
  {
    seq(|s|, i requires 0 <= i < |s| => LowerChar(s[i]))
  }

  predicate HasCyrillic(s: string) {
    exists i | 0 <= i < |s| :: IsCyrillic(s[i])
  }

  // ---------------- Tokens ----------------

  /** `s.split()`: the maximal runs of non-whitespace characters, in order. */
  function Tokens(s: string): seq<string> {
    TokensFrom(s, "")
  }

  /** The tokens of `cur + s`, where `cur` is the token being read so far. */
  function TokensFrom(s: string, cur: string): seq<string>
    decreases |s|
  {
    if s == [] then (if cur == "" then [] else [cur])
    else if IsSpace(s[0]) then (if cur == "" then [] else [cur]) + TokensFrom(s[1..], "")
    else TokensFrom(s[1..], cur + [s[0]])
  }

  predicate IsWord(t: string) {
    t != "" && forall i | 0 <= i < |t| :: !IsSpace(t[i])
  }

  /** Splitting yields non-empty tokens without whitespace. */
  lemma {:induction false} TokensFromAreWords(s: string, cur: string)
    requires forall i | 0 <= i < |cur| :: !IsSpace(cur[i])
    ensures forall t | t in TokensFrom(s, cur) :: IsWord(t)
    decreases |s|
  {
    if s != [] {
      if IsSpace(s[0]) {
        TokensFromAreWords(s[1..], "");
      } else {
        var cur' := cur + [s[0]];
        assert forall i | 0 <= i < |cur'| :: !IsSpace(cur'[i]) by {
          assert forall i | 0 <= i < |cur| :: cur'[i] == cur[i];
        }
        TokensFromAreWords(s[1..], cur');
      }
    }
  }

  /** The tokens written one after the other. */
  function Flatten(tokens: seq<string>): string {
    if tokens == [] then "" else tokens[0] + Flatten(tokens[1..])
  }

  /** `s` with every whitespace character removed. */
  function NonSpace(s: string): string {
    if s == [] then "" else (if IsSpace(s[0]) then "" else [s[0]]) + NonSpace(s[1..])
  }

  lemma {:induction false} FlattenAppend(a: seq<string>, b: seq<string>)
    ensures Flatten(a + b) == Flatten(a) + Flatten(b)
  {
    if a == [] {
      assert a + b == b;
    } else {
      assert (a + b)[0] == a[0] && (a + b)[1..] == a[1..] + b;
      FlattenAppend(a[1..], b);
    }
  }

  /** Splitting loses only whitespace: the tokens of `cur + s` spell out `cur` followed by `s` without its whitespace. */
  lemma {:induction false} TokensFromCover(s: string, cur: string)
    ensures Flatten(TokensFrom(s, cur)) == cur + NonSpace(s)
    decreases |s|
  {
    if s != [] {
      if IsSpace(s[0]) {
        var head: seq<string> := if cur == "" then [] else [cur];
        TokensFromCover(s[1..], "");
        FlattenAppend(head, TokensFrom(s[1..], ""));
        assert Flatten(head) == cur;
      } else {
        TokensFromCover(s[1..], cur + [s[0]]);
      }
    }
  }

  /** `split()` yields non-empty tokens without whitespace which, joined, give back the text without its whitespace. */
  lemma TokensAreWords(s: string)
    ensures forall t | t in Tokens(s) :: IsWord(t)
    ensures Flatten(Tokens(s)) == NonSpace(s)
  {
    TokensFromAreWords(s, "");
    TokensFromCover(s, "");
  }

  lemma {:induction false} TokensFromSplit(a: string, c: char, b: string, cur: string)
    requires IsSpace(c)
    ensures TokensFrom(a + [c] + b, cur) == TokensFrom(a, cur) + TokensFrom(b, "")
    decreases |a|
  {
    var s := a + [c] + b;
    if a == [] {
      assert s[0] == c && s[1..] == b;
    } else {
      assert s[0] == a[0] && s[1..] == a[1..] + [c] + b;
      if IsSpace(a[0]) {
        TokensFromSplit(a[1..], c, b, "");
      } else {
        TokensFromSplit(a[1..], c, b, cur + [a[0]]);
      }
    }
  }

  /** Whitespace separates tokens: a text splits at each whitespace character into the tokens on either side. */
  lemma TokensSplitAtSpace(a: string, c: char, b: string)
    requires IsSpace(c)
    ensures Tokens(a + [c] + b) == Tokens(a) + Tokens(b)
  {
    TokensFromSplit(a, c, b, "");
  }

  lemma {:induction false} TokensFromRun(s: string, cur: string)
    requires cur + s != ""
    requires forall i | 0 <= i < |s| :: !IsSpace(s[i])
    ensures TokensFrom(s, cur) == [cur + s]
    decreases |s|
  {
    if s == [] {
      assert cur + s == cur;
    } else {
      assert cur + s == (cur + [s[0]]) + s[1..];
      TokensFromRun(s[1..], cur + [s[0]]);
    }
  }

  /** A run of non-whitespace characters is never cut: it is a single token. */
  lemma WordIsOneToken(s: string)
    requires IsWord(s)
    ensures Tokens(s) == [s]
  {
    assert "" + s == s;
    TokensFromRun(s, "");
  }

  /** The punctuation `tok.strip(".,!?;:")` removes from both ends. */
  predicate IsPunct(c: char) {
    c in ".,!?;:"
  }

  function StripStart(t: string): (r: string)
    ensures |r| <= |t|
  {
    if t != [] && IsPunct(t[0]) then StripStart(t[1..]) else t
  }

  function StripEnd(t: string): (r: string)
    ensures |r| <= |t|
  {
    if t != [] && IsPunct(t[|t| - 1]) then StripEnd(t[..|t| - 1]) else t
  }

  /** `tok.strip(".,!?;:")` */
  function Strip(t: string): string {
    StripEnd(StripStart(t))
  }

  /** The Uzbek words `detect_uzbek` recognises. */
  const UzbekTokens: set<string> := {
    "men", "sen", "biz", "siz", "ular", "va", "yoq", "yo'q",
    "kitob", "rahmat", "salom", "yaxshi", "bor", "yo'qlik",
    "qanday", "iltimos", "olma", "ot", "it", "bolalar"}

  /** Some token of `toks`, stripped of punctuation, is a known Uzbek word. */
  predicate HasUzbekToken(toks: seq<string>) {
    exists k | 0 <= k < |toks| :: Strip(toks[k]) in UzbekTokens
  }

  /**
   * `detect_uzbek`: a non-empty text is taken as Uzbek when it has a Cyrillic character
   * or when one of its lower-cased, punctuation-stripped words is a known Uzbek word.
   */
  method DetectUzbek(text: string) returns (isUzbek: bool)
    ensures isUzbek <==> text != "" && (HasCyrillic(text) || HasUzbekToken(Tokens(Lower(text))))
  {
    if text == "" {
      return false;
    }
    var i := 0;
    while i < |text|
      invariant 0 <= i <= |text|
      invariant forall j | 0 <= j < i :: !IsCyrillic(text[j])
    {
      if IsCyrillic(text[i]) {
        return true;
      }
      i := i + 1;
    }
    var toks := Tokens(Lower(text));
    var k := 0;
    while k < |toks|
      invariant 0 <= k <= |toks|
      invariant forall j | 0 <= j < k :: Strip(toks[j]) !in UzbekTokens
    {
      if Strip(toks[k]) in UzbekTokens {
        return true;
      }
      k := k + 1;
    }
    return false;
  }

  // ---------------- Dictionary lookup ----------------

  /** The key of `e` equals `word` ignoring case. */
  predicate KeyMatches(e: WordEntry, word: string) {
    Lower(e.key) == Lower(word)
  }

  /**
   * `find_word_info`: the entry of the first key equal to `word` ignoring case, or
   * None when no key matches.
   */
  method FindWordInfo(words: seq<WordEntry>, word: string) returns (r: Option<WordInfo>)
    ensures r.None? <==> forall i | 0 <= i < |words| :: !KeyMatches(words[i], word)
    ensures r.Some? ==> exists i | 0 <= i < |words| ::
      && KeyMatches(words[i], word)
      && r.value == words[i].info
      && forall j | 0 <= j < i :: !KeyMatches(words[j], word)
  {
    var i := 0;
    while i < |words|
      invariant 0 <= i <= |words|
      invariant forall j | 0 <= j < i :: !KeyMatches(words[j], word)
    {
      if Lower(words[i].key) == Lower(word) {
        return Some(words[i].info);
      }
      i := i + 1;
    }
    return None;
  }

  // ---------------- Word card ----------------

  /** The lines of a word card, by meaning; the emoji labels and Markdown are not modelled. */
  datatype Line =
    | WordLine(word: string)
    | TranslationLine(translation: string)
    | PartOfSpeechLine(partOfSpeech: string)
    | LevelLine(level: string)
    | PrefixesLine(prefixes: seq<string>)
    | SuffixesLine(suffixes: seq<string>)
    | SingularPluralLine(form: string)
    | ExamplesHeading
    | ExampleLine(example: string)
    | SynonymsLine(synonyms: seq<string>)

  /** The position of a line's section on the card. */
  function Section(l: Line): nat {
    match l
    case WordLine(_) => 0
    case TranslationLine(_) => 1
    case PartOfSpeechLine(_) => 2
    case LevelLine(_) => 3
    case PrefixesLine(_) => 4
    case SuffixesLine(_) => 5
    case SingularPluralLine(_) => 6
    case ExamplesHeading => 7
    case ExampleLine(_) => 8
    case SynonymsLine(_) => 9
  }

  /** Python truthiness of an optional string field. */
  predicate Present(o: Option<string>) {
    o.Some? && o.value != ""
  }

  /** The sections the card has a line of. */
  function Sections(lines: seq<Line>): set<nat> {
    if lines == [] then {} else {Section(lines[0])} + Sections(lines[1..])
  }

  /** The card has a line of section k. */
  predicate HasSection(lines: seq<Line>, k: nat) {
    k in Sections(lines)
  }

  lemma {:induction false} SectionsAppend(a: seq<Line>, b: seq<Line>)
    ensures Sections(a + b) == Sections(a) + Sections(b)
  {
    if a == [] {
      assert a + b == b;
    } else {
      assert (a + b)[1..] == a[1..] + b;
      SectionsAppend(a[1..], b);
    }
  }

  /**
   * Sections come in increasing order down the card; only example lines share a section.
   */
  predicate InCardOrder(lines: seq<Line>) {
    forall i, j | 0 <= i < j < |lines| ::
      Section(lines[i]) < Section(lines[j]) || (lines[i].ExampleLine? && lines[j].ExampleLine?)
  }

  /** Every line of the card comes before section k. */
  predicate SectionsBelow(lines: seq<Line>, k: nat) {
    forall i | 0 <= i < |lines| :: Section(lines[i]) < k
  }

  lemma {:induction false} NotBelow(lines: seq<Line>, k: nat)
    requires SectionsBelow(lines, k)
    ensures !HasSection(lines, k)
  {
    if lines != [] {
      assert SectionsBelow(lines[1..], k);
      NotBelow(lines[1..], k);
    }
  }

  /** Every line of the card is of section k or a later one. */
  predicate SectionsFrom(lines: seq<Line>, k: nat) {
    forall i | 0 <= i < |lines| :: k <= Section(lines[i])
  }

  /** Putting two cards one after the other, when the sections of the first come first. */
  lemma {:induction false} Concat(a: seq<Line>, b: seq<Line>, m: nat, hi: nat)
    requires InCardOrder(a) && InCardOrder(b) && m <= hi
    requires SectionsBelow(a, m) && SectionsFrom(b, m) && SectionsBelow(b, hi)
    ensures InCardOrder(a + b) && SectionsBelow(a + b, hi)
    ensures Sections(a + b) == Sections(a) + Sections(b)
    ensures ExamplesOf(a + b) == ExamplesOf(a) + ExamplesOf(b)
  {
    assert forall i | 0 <= i < |a| :: (a + b)[i] == a[i];
    assert forall i | 0 <= i < |b| :: (a + b)[|a| + i] == b[i];
    SectionsAppend(a, b);
    ExamplesOfAppend(a, b);
  }

  /** A line carries the value of the field it shows. */
  predicate Shows(l: Line, word: string, translation: string, info: Option<WordInfo>) {
    match l
    case WordLine(w) => w == word
    case TranslationLine(t) => t == translation
    case PartOfSpeechLine(p) => info.Some? && info.value.partOfSpeech == Some(p)
    case LevelLine(v) => info.Some? && info.value.level == Some(v)
    case PrefixesLine(ps) => info.Some? && info.value.prefixes == ps
    case SuffixesLine(ss) => info.Some? && info.value.suffixes == ss
    case SingularPluralLine(f) => info.Some? && info.value.singularPlural == Some(f)
    case ExamplesHeading => true
    case ExampleLine(_) => true
    case SynonymsLine(ss) => info.Some? && info.value.synonyms == ss
  }

  /** Every line of the card carries the value of the field it shows. */
  predicate ShowsAll(lines: seq<Line>, word: string, translation: string, info: Option<WordInfo>) {
    forall i | 0 <= i < |lines| :: Shows(lines[i], word, translation, info)
  }

  /** The example texts of the card, in order. */
  function ExamplesOf(lines: seq<Line>): seq<string> {
    if lines == [] then []
    else (if lines[0].ExampleLine? then [lines[0].example] else []) + ExamplesOf(lines[1..])
  }

  lemma {:induction false} ExamplesOfAppend(a: seq<Line>, b: seq<Line>)
    ensures ExamplesOf(a + b) == ExamplesOf(a) + ExamplesOf(b)
  {
    if a == [] {
      assert a + b == b;
    } else {
      assert (a + b)[0] == a[0];
      assert (a + b)[1..] == a[1..] + b;
      ExamplesOfAppend(a[1..], b);
    }
  }

  /** One optional field of the card: its line is added after the earlier ones when the field is present. */
  method AddWhen(lines: seq<Line>, present: bool, l: Line, ghost word: string, ghost translation: string,
                 ghost info: Option<WordInfo>) returns (r: seq<Line>)
    requires !l.ExampleLine? && (present ==> Shows(l, word, translation, info))
    requires InCardOrder(lines) && SectionsBelow(lines, Section(l)) && ShowsAll(lines, word, translation, info)
    ensures InCardOrder(r) && SectionsBelow(r, Section(l) + 1) && ShowsAll(r, word, translation, info)
    ensures HasSection(r, Section(l)) <==> present
    ensures forall k | k != Section(l) :: HasSection(r, k) <==> HasSection(lines, k)
    ensures ExamplesOf(r) == ExamplesOf(lines)
    ensures |r| >= |lines| && forall i | 0 <= i < |lines| :: r[i] == lines[i]
  {
    r := lines;
    NotBelow(lines, Section(l));
    if present {
      AppendLine(lines, l, word, translation, info);
      r := lines + [l];
    }
  }

  lemma AppendLine(lines: seq<Line>, l: Line, word: string, translation: string, info: Option<WordInfo>)
    requires !l.ExampleLine? && Shows(l, word, translation, info)
    requires InCardOrder(lines) && SectionsBelow(lines, Section(l)) && ShowsAll(lines, word, translation, info)
    ensures InCardOrder(lines + [l]) && SectionsBelow(lines + [l], Section(l) + 1)
    ensures ShowsAll(lines + [l], word, translation, info)
    ensures Sections(lines + [l]) == Sections(lines) + {Section(l)}
    ensures ExamplesOf(lines + [l]) == ExamplesOf(lines)
  {
    var r := lines + [l];
    Concat(lines, [l], Section(l), Section(l) + 1);
    assert Sections([l]) == {Section(l)} && ExamplesOf([l]) == [] by {
      assert [l][1..] == [];
    }
    assert ShowsAll(r, word, translation, info) by {
      forall i | 0 <= i < |r|
        ensures Shows(r[i], word, translation, info)
      {
        if i < |lines| {
          assert r[i] == lines[i];
        }
      }
    }
  }

  /** The examples block: a heading and one line per example, or nothing when there are none. */
  method ExampleLines(examples: seq<string>) returns (lines: seq<Line>)
    ensures InCardOrder(lines) && SectionsFrom(lines, 7) && SectionsBelow(lines, 9)
    ensures forall i | 0 <= i < |lines| :: lines[i].ExamplesHeading? || lines[i].ExampleLine?
    ensures Sections(lines) == if examples == [] then {} else {7, 8}
    ensures ExamplesOf(lines) == examples
  {
    lines := [];
    if examples == [] {
      return;
    }
    lines := [ExamplesHeading];
    assert Sections(lines) == {7} by {
      assert lines[1..] == [];
    }
    var k := 0;
    while k < |examples|
      invariant 0 <= k <= |examples|
      invariant |lines| == k + 1 && lines[0] == ExamplesHeading
      invariant forall i | 1 <= i < |lines| :: lines[i] == ExampleLine(examples[i - 1])
      invariant Sections(lines) == if k == 0 then {7} else {7, 8}
      invariant ExamplesOf(lines) == examples[..k]
    {
      ExamplesOfAppend(lines, [ExampleLine(examples[k])]);
      SectionsAppend(lines, [ExampleLine(examples[k])]);
      assert Sections([ExampleLine(examples[k])]) == {8} by {
        assert [ExampleLine(examples[k])][1..] == [];
      }
      assert examples[..k + 1] == examples[..k] + [examples[k]];
      lines := lines + [ExampleLine(examples[k])];
      k := k + 1;
    }
    assert examples[..k] == examples;
  }

  /** The field lines of an entry, sections 2 to 6, added after the heading lines of the card. */
  method FieldLines(lines: seq<Line>, w: WordInfo, ghost word: string, ghost translation: string,
                    ghost info: Option<WordInfo>) returns (r: seq<Line>)
    requires info == Some(w) && |lines| >= 2
    requires InCardOrder(lines) && SectionsBelow(lines, 2) && ShowsAll(lines, word, translation, info)
    ensures InCardOrder(r) && SectionsBelow(r, 7) && ShowsAll(r, word, translation, info)
    ensures FieldsShown(r, w) && ExamplesOf(r) == ExamplesOf(lines)
    ensures |r| >= 2 && r[0] == lines[0] && r[1] == lines[1]
  {
    r := AddWhen(lines, Present(w.partOfSpeech), PartOfSpeechLine(w.partOfSpeech.GetOr("")), word, translation, info);
    assert HasSection(r, 2) <==> Present(w.partOfSpeech);
    r := AddWhen(r, Present(w.level), LevelLine(w.level.GetOr("")), word, translation, info);
    assert HasSection(r, 3) <==> Present(w.level);
    r := AddWhen(r, w.prefixes != [], PrefixesLine(w.prefixes), word, translation, info);
    assert HasSection(r, 4) <==> w.prefixes != [];
    r := AddWhen(r, w.suffixes != [], SuffixesLine(w.suffixes), word, translation, info);
    assert HasSection(r, 5) <==> w.suffixes != [];
    r := AddWhen(r, Present(w.singularPlural), SingularPluralLine(w.singularPlural.GetOr("")), word, translation, info);
  }

  /** Sections 2 to 6 appear exactly for the fields of the entry that are present. */
  ghost predicate FieldsShown(lines: seq<Line>, w: WordInfo) {
    && (HasSection(lines, 2) <==> Present(w.partOfSpeech))
    && (HasSection(lines, 3) <==> Present(w.level))
    && (HasSection(lines, 4) <==> w.prefixes != [])
    && (HasSection(lines, 5) <==> w.suffixes != [])
    && (HasSection(lines, 6) <==> Present(w.singularPlural))
  }

  lemma ExamplesShown(lines: seq<Line>, examples: seq<Line>, w: WordInfo)
    requires FieldsShown(lines, w) && SectionsBelow(lines, 7)
    requires Sections(examples) == if w.examples == [] then {} else {7, 8}
    ensures FieldsShown(lines + examples, w)
    ensures HasSection(lines + examples, 7) <==> w.examples != []
  {
    SectionsAppend(lines, examples);
    NotBelow(lines, 7);
  }

  /**
   * `format_word_response`: the word and its translation first; then, when there is an
   * info entry, one line for each field that is present (non-empty), in a fixed order,
   * with the examples listed under a heading in their own order.
   */
  method FormatWordResponse(word: string, translation: string, info: Option<WordInfo>) returns (lines: seq<Line>)
    ensures |lines| >= 2 && lines[0] == WordLine(word) && lines[1] == TranslationLine(translation)
    ensures info.None? ==> |lines| == 2
    ensures InCardOrder(lines) && ShowsAll(lines, word, translation, info)
    ensures HasSection(lines, 2) <==> info.Some? && Present(info.value.partOfSpeech)
    ensures HasSection(lines, 3) <==> info.Some? && Present(info.value.level)
    ensures HasSection(lines, 4) <==> info.Some? && info.value.prefixes != []
    ensures HasSection(lines, 5) <==> info.Some? && info.value.suffixes != []
    ensures HasSection(lines, 6) <==> info.Some? && Present(info.value.singularPlural)
    ensures HasSection(lines, 7) <==> info.Some? && info.value.examples != []
    ensures HasSection(lines, 9) <==> info.Some? && info.value.synonyms != []
    ensures ExamplesOf(lines) == if info.Some? then info.value.examples else []
  {
    lines := [WordLine(word), TranslationLine(translation)];
    assert Sections(lines) == {0, 1} by {
      assert lines[1..] == [TranslationLine(translation)];
      assert lines[1..][1..] == [];
      assert Sections(lines[1..]) == {1} + Sections(lines[1..][1..]);
    }
    assert ExamplesOf(lines) == [] by {
      assert lines[1..][1..] == [];
      assert ExamplesOf(lines[1..]) == ExamplesOf(lines[1..][1..]);
    }
    if info.None? {
      return;
    }
    var w := info.value;
    lines := FieldLines(lines, w, word, translation, info);
    var examples := ExampleLines(w.examples);
    Concat(lines, examples, 7, 9);
    ExamplesShown(lines, examples, w);
    lines := lines + examples;
    lines := AddWhen(lines, w.synonyms != [], SynonymsLine(w.synonyms), word, translation, info);
  }
}
