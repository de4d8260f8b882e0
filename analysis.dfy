/** `performAIAnalysis` of game.js: a complexity score for a task
    description built from its length, its sentences and the keyword lists
    it mentions, capped at 100 and mapped to a pair of neighbouring
    Fibonacci story-point values. */
module Analysis {
  import opened Util
  import opened Players

  datatype Confidence = High | Medium | Low

  datatype Report = Report(
    text: string,
    words: nat,
    sentences: nat,
    complexityScore: int,
    recommendedPoints: (int, int),
    confidence: Confidence,
    reasoning: seq<Reason>,
    technicalCount: nat,
    integrationCount: nat,
    uncertainCount: nat)

  const TechnicalWords: seq<string> := ["API", "database", "authentication", "integration", "deployment",
    "security", "encryption", "optimization", "architecture", "infrastructure", "migration", "refactor",
    "algorithm", "backend", "frontend", "microservice", "cloud", "server", "testing", "validation"]
  const UncertainWords: seq<string> := ["maybe", "possibly", "unclear", "TBD", "not sure", "depends",
    "complex", "complicated"]
  const IntegrationWords: seq<string> := ["integrate", "connect", "sync", "third-party", "external", "API",
    "webhook", "service"]
  const MultipleWords: seq<string> := ["multiple", "several", "many", "various", "different", "all", "every"]

  /** `toLowerCase` on the ASCII letters. */
  function LowerChar(c: char): char {
    if 'A' <= c <= 'Z' then (c as int + 32) as char else c
  }

  function Lower(s: string): (r: string)
    ensures |r| == |s| && forall i :: 0 <= i < |s| ==> r[i] == LowerChar(s[i])
  {
    if s == [] then [] else [LowerChar(s[0])] + Lower(s[1..])
  }

  /** `hay.includes(needle)`. */
  predicate Includes(hay: string, needle: string) {
    exists i :: 0 <= i <= |hay| - |needle| && OccursAt(hay, needle, i)
  }

  predicate OccursAt(hay: string, needle: string, i: int)
    requires 0 <= i <= |hay| - |needle|
  {
    hay[i..i + |needle|] == needle
  }

  /** The keyword test of the four filters, on the lower-cased text. */
  function MentionedIn(textLower: string): string -> bool {
    (w: string) => Includes(textLower, Lower(w))
  }

  /** How many of `keywords` the text mentions, case-insensitively. */
  function Mentions(text: string, keywords: seq<string>): (r: nat)
    ensures r <= |keywords|
  {
    Count(keywords, MentionedIn(Lower(text)))
  }

  /** No keyword is counted exactly when none of them occurs in the
      lower-cased text. */
  lemma MentionsNone(text: string, keywords: seq<string>)
    ensures Mentions(text, keywords) == 0 <==>
      forall i :: 0 <= i < |keywords| ==> !Includes(Lower(text), Lower(keywords[i]))
  {
    CountZero(keywords, MentionedIn(Lower(text)));
  }

  /** Lower-casing twice changes nothing more. */
  lemma LowerIdempotent(s: string)
    ensures Lower(Lower(s)) == Lower(s)
  {
  }

  /** The keyword count ignores ASCII case in the text. */
  lemma MentionsIgnoresCase(text: string, keywords: seq<string>)
    ensures Mentions(Lower(text), keywords) == Mentions(text, keywords)
  {
    LowerIdempotent(text);
  }

  /** Maximal runs of whitespace in `s`. */
  function SpaceRuns(s: string): nat
    decreases |s|
  {
    if s == [] then 0
    else if IsTrimSpace(s[0]) then 1 + SpaceRuns(TrimStart(s))
    else SpaceRuns(s[1..])
  }

  /** `text.split(/\s+/).length`: `\s` matches exactly the trim characters,
      and every run of them separates two pieces. */
  function WordCount(s: string): nat {
    1 + SpaceRuns(s)
  }

  /** A text without whitespace is one word. */
  lemma {:induction false} SpaceFreeRuns(w: string)
    requires forall i :: 0 <= i < |w| ==> !IsTrimSpace(w[i])
    ensures SpaceRuns(w) == 0
  {
    if w != [] {
      SpaceFreeRuns(w[1..]);
    }
  }

  /** Putting a space-free word and a single space in front of a text adds
      exactly one piece to the split: so words joined by single spaces
      count as themselves. */
  lemma {:induction false} WordThenSpace(w: string, rest: string)
    requires forall i :: 0 <= i < |w| ==> !IsTrimSpace(w[i])
    requires rest == [] || !IsTrimSpace(rest[0])
    ensures SpaceRuns(w + " " + rest) == 1 + SpaceRuns(rest)
  {
    if w == [] {
      assert w + " " + rest == [' '] + rest;
      assert TrimStart([' '] + rest) == TrimStart(rest) by {
        assert ([' '] + rest)[1..] == rest;
      }
      assert TrimStart(rest) == rest;
    } else {
      assert (w + " " + rest)[1..] == w[1..] + " " + rest;
      WordThenSpace(w[1..], rest);
    }
  }

  predicate IsTerminator(c: char) {
    c == '.' || c == '!' || c == '?'
  }

  /** How many sentence terminators `s` holds. */
  function Terminators(s: string): nat {
    if s == [] then 0 else (if IsTerminator(s[0]) then 1 else 0) + Terminators(s[1..])
  }

  /** The pieces between sentence terminators. Splitting at every single
      terminator, not at runs of them as `/[.!?]+/` does, only adds empty
      pieces, which the blank filter below drops anyway. */
  function Pieces(s: string): (r: seq<string>)
    ensures |r| == 1 + Terminators(s)
    ensures forall k :: 0 <= k < |r| ==> forall j :: 0 <= j < |r[k]| ==> !IsTerminator(r[k][j])
  {
    if s == [] then [""]
    else
      var rest := Pieces(s[1..]);
      if IsTerminator(s[0]) then [""] + rest else [[s[0]] + rest[0]] + rest[1..]
  }

  function NonBlank(p: string): bool {
    Trim(p) != ""
  }

  /** `text.split(/[.!?]+/).filter(s => s.trim()).length`. */
  function SentenceCount(s: string): nat {
    Count(Pieces(s), NonBlank)
  }

  /** A text with no terminator is a single piece, hence one sentence if
      it is not blank and none otherwise. */
  lemma {:induction false} SinglePiece(s: string)
    requires forall i :: 0 <= i < |s| ==> !IsTerminator(s[i])
    ensures Pieces(s) == [s]
  {
    if s != [] {
      SinglePiece(s[1..]);
      assert [s[0]] + s[1..] == s;
    }
  }

  lemma SentenceWithoutTerminator(s: string)
    requires forall i :: 0 <= i < |s| ==> !IsTerminator(s[i])
    ensures SentenceCount(s) == if Trim(s) != "" then 1 else 0
  {
    SinglePiece(s);
    assert Filter([s], NonBlank) == (if NonBlank(s) then [s] else []) + Filter([s][1..], NonBlank);
  }

  function Min(a: real, b: real): real {
    if a < b then a else b
  }

  /** The weighted sum of `performAIAnalysis`, before the cap. */
  function RawScore(words: nat, sentences: nat, technical: nat, integration: nat, multiple: nat, uncertain: nat): real {
    Min(words as real / 10.0, 15.0) + Min((sentences * 3) as real, 15.0)
      + (technical * 8) as real + (integration * 6) as real + (multiple * 4) as real + (uncertain * 5) as real
  }

  function Score(words: nat, sentences: nat, technical: nat, integration: nat, multiple: nat, uncertain: nat): (r: real)
    ensures 0.0 <= r <= 100.0
  {
    Min(RawScore(words, sentences, technical, integration, multiple, uncertain), 100.0)
  }

  /** No indicator ever lowers the score: it is monotone in every count. */
  lemma ScoreMonotone(w1: nat, s1: nat, t1: nat, i1: nat, m1: nat, u1: nat,
                      w2: nat, s2: nat, t2: nat, i2: nat, m2: nat, u2: nat)
    requires w1 <= w2 && s1 <= s2 && t1 <= t2 && i1 <= i2 && m1 <= m2 && u1 <= u2
    ensures Score(w1, s1, t1, i1, m1, u1) <= Score(w2, s2, t2, i2, m2, u2)
  {
  }

  /** The six score bands, lowest first. */
  datatype Band = VerySimple | Simple | Moderate | Complex | HighlyComplex | VeryComplex

  function BandOf(score: real): Band {
    if score < 10.0 then VerySimple
    else if score < 25.0 then Simple
    else if score < 40.0 then Moderate
    else if score < 60.0 then Complex
    else if score < 80.0 then HighlyComplex
    else VeryComplex
  }

  /** `recommendedPoints` of a band. */
  function BandPoints(b: Band): (int, int) {
    match b
    case VerySimple => (1, 2)
    case Simple => (2, 3)
    case Moderate => (3, 5)
    case Complex => (5, 8)
    case HighlyComplex => (8, 13)
    case VeryComplex => (13, 21)
  }

  function BandConfidence(b: Band): Confidence {
    match b
    case VerySimple | Simple => High
    case Moderate | Complex => Medium
    case HighlyComplex | VeryComplex => Low
  }

  function Fib(n: nat): nat {
    if n < 2 then n else Fib(n - 1) + Fib(n - 2)
  }

  /** Every recommendation is a pair of consecutive Fibonacci numbers, from
      (1, 2) up to (13, 21). */
  lemma BucketIsFibonacciPair(score: real)
    ensures exists n: nat :: 2 <= n <= 7 && BandPoints(BandOf(score)) == (Fib(n), Fib(n + 1))
  {
    assert Fib(2) == 1 && Fib(3) == 2 && Fib(4) == 3 && Fib(5) == 5 && Fib(6) == 8 && Fib(7) == 13 && Fib(8) == 21;
    var p := BandPoints(BandOf(score));
    if p == (1, 2) {
      assert p == (Fib(2), Fib(3));
    } else if p == (2, 3) {
      assert p == (Fib(3), Fib(4));
    } else if p == (3, 5) {
      assert p == (Fib(4), Fib(5));
    } else if p == (5, 8) {
      assert p == (Fib(5), Fib(6));
    } else if p == (8, 13) {
      assert p == (Fib(6), Fib(7));
    } else {
      assert p == (Fib(7), Fib(8));
    }
  }

  /** A higher score never recommends fewer points, and confidence never
      rises with it. */
  lemma BucketMonotone(a: real, b: real)
    requires a <= b
    ensures BandPoints(BandOf(a)).0 <= BandPoints(BandOf(b)).0
    ensures BandPoints(BandOf(a)).1 <= BandPoints(BandOf(b)).1
    ensures BandConfidence(BandOf(b)) == High ==> BandConfidence(BandOf(a)) == High
    ensures BandConfidence(BandOf(a)) == Low ==> BandConfidence(BandOf(b)) == Low
  {
  }

  /** One line of `reasoning`; `ReasonText` gives its wording. */
  datatype Reason =
    | Summary(band: Band)
    | TechnicalTerms(count: nat)
    | ExternalSystems
    | Uncertainty
    | BroadScope
    | LongDescription

  function ReasonText(r: Reason): string {
    match r
    case Summary(VerySimple) => "Very simple task with minimal complexity"
    case Summary(Simple) => "Simple task with straightforward implementation"
    case Summary(Moderate) => "Moderate complexity requiring some planning"
    case Summary(Complex) => "Complex task with multiple components"
    case Summary(HighlyComplex) => "Highly complex task requiring significant effort"
    case Summary(VeryComplex) => "Very complex task, consider breaking down"
    case TechnicalTerms(n) => DecimalString(n) + " technical terms detected"
    case ExternalSystems => "Involves integration with external systems"
    case Uncertainty => "Contains uncertainty - may need clarification"
    case BroadScope => "Broad scope - affects multiple areas"
    case LongDescription => "Detailed description suggests complex requirements"
  }

  /** The extra reasoning lines, in the order the source adds them: each
      line is present exactly when its indicator passes its threshold. */
  function Remarks(words: nat, technical: nat, integration: nat, multiple: nat, uncertain: nat): (r: seq<Reason>)
    ensures |r| <= 5
    ensures TechnicalTerms(technical) in r <==> technical > 2
    ensures ExternalSystems in r <==> integration > 0
    ensures Uncertainty in r <==> uncertain > 0
    ensures BroadScope in r <==> multiple > 2
    ensures LongDescription in r <==> words > 100
    ensures forall x :: x in r ==> !x.Summary?
  {
    Flag(technical > 2, TechnicalTerms(technical))
    + Flag(integration > 0, ExternalSystems)
    + Flag(uncertain > 0, Uncertainty)
    + Flag(multiple > 2, BroadScope)
    + Flag(words > 100, LongDescription)
  }

  /** One conditional `reasoning.push`: the line when the condition holds,
      nothing otherwise. */
  function Flag(cond: bool, line: Reason): (r: seq<Reason>)
    ensures cond ==> r == [line]
    ensures !cond ==> r == []
  {
    if cond then [line] else []
  }

  /** The report for given indicator counts: the band is chosen from the
      capped score before rounding, and the displayed score is that score
      rounded. */
  function Assess(text: string, words: nat, sentences: nat, technical: nat, integration: nat,
                  multiple: nat, uncertain: nat): (r: Report)
    ensures r.text == text && r.words == words && r.sentences == sentences
    ensures r.technicalCount == technical && r.integrationCount == integration && r.uncertainCount == uncertain
    ensures 0 <= r.complexityScore <= 100
    ensures 1 <= |r.reasoning| <= 6
    ensures var s := Score(words, sentences, technical, integration, multiple, uncertain);
      && r.recommendedPoints == BandPoints(BandOf(s)) && r.confidence == BandConfidence(BandOf(s))
      && r.complexityScore as real - 0.5 <= s < r.complexityScore as real + 0.5
      && r.reasoning[0] == Summary(BandOf(s))
    ensures r.reasoning[1..] == Remarks(words, technical, integration, multiple, uncertain)
    ensures r.recommendedPoints.0 < r.recommendedPoints.1
  {
    var score := Score(words, sentences, technical, integration, multiple, uncertain);
    var band := BandOf(score);
    Report(text, words, sentences, Round(score), BandPoints(band), BandConfidence(band),
           [Summary(band)] + Remarks(words, technical, integration, multiple, uncertain),
           technical, integration, uncertain)
  }

  /** `performAIAnalysis` over given keyword lists. */
  function Analyze(text: string, technicalWords: seq<string>, uncertainWords: seq<string>,
                   integrationWords: seq<string>, multipleWords: seq<string>): (r: Report)
    ensures r.text == text && r.words == WordCount(text) && r.sentences == SentenceCount(text)
    ensures r.technicalCount == Mentions(text, technicalWords)
    ensures r.integrationCount == Mentions(text, integrationWords)
    ensures r.uncertainCount == Mentions(text, uncertainWords)
    ensures r.words >= 1 && r.technicalCount <= |technicalWords|
    ensures r.integrationCount <= |integrationWords| && r.uncertainCount <= |uncertainWords|
  {
    Assess(text, WordCount(text), SentenceCount(text), Mentions(text, technicalWords),
           Mentions(text, integrationWords), Mentions(text, multipleWords), Mentions(text, uncertainWords))
  }

  /** `performAIAnalysis(text)` with the source's keyword lists. */
  function PerformAIAnalysis(text: string): Report {
    Analyze(text, TechnicalWords, UncertainWords, IntegrationWords, MultipleWords)
  }

  /** `analyzeTask`: a blank description is refused (an alert); otherwise
      the trimmed text is analysed. */
  function AnalyzeTask(input: string): (r: Option<Report>)
    ensures r.None? <==> Blank(input)
    ensures r.Some? ==> r.value.text == Trim(input)
  {
    var t := Trim(input);
    TrimEmpty(input);
    if t == "" then None else Some(PerformAIAnalysis(t))
  }
}
