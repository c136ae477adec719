/** The canned answer the session analyses in place of a transcription of
    the recorded audio, and what a session made only of such answers
    produces. */
module MockAnswer {
  import opened Text
  import opened Catalog
  import opened Profile
  import opened Analysis
  import opened Synthesis

  /** The canned transcription `stopRecording` analyses in place of the
      recorded audio, for the domain of the current question. */
  function MockTranscription(d: Domain): (r: string)
    ensures |r| == 88 + |DomainName(d)|
  {
    assert |MockTail| == 65;
    "Resposta simulada para " + DomainName(d) + MockTail
  }

  /** The text after the domain name: a colon, then seven words separated
      by single spaces. */
  const MockTail: string := ":" + " " + MockTailWords()

  /** The raw words after the domain name, separated by single spaces. */
  function MockTailWords(): string {
    "Responsável," + " " + ("organizado," + " " + ("ajudando" + " " + ("pessoas." + " " +
    ("Justiça" + " " + ("e" + " " + "igualdade.")))))
  }

  /** The words of the mock answer after the domain, lower-cased: the
      punctuation stays attached, so neither "responsável," nor
      "organizado," is a keyword. */
  const MockTailLower: seq<string> :=
    ["responsável,", "organizado,", "ajudando", "pessoas.", "justiça", "e", "igualdade."]

  lemma RegroupAtSpaces(a: string, b: string, c: string, n: string, w: string)
    ensures (a + " " + b + " " + c + " ") + n + (":" + " " + w) ==
            a + " " + (b + " " + (c + " " + ((n + ":") + " " + w)))
  {
  }

  lemma MockShape(d: Domain)
    ensures MockTranscription(d) ==
            "Resposta" + " " + ("simulada" + " " + ("para" + " " +
            ((DomainName(d) + ":") + " " + MockTailWords())))
  {
    assert "Resposta simulada para " == "Resposta" + " " + "simulada" + " " + "para" + " ";
    RegroupAtSpaces("Resposta", "simulada", "para", DomainName(d), MockTailWords());
  }

  lemma MockTailTokensLower()
    ensures Lower("Responsável,") == "responsável," && Lower("organizado,") == "organizado,"
    ensures Lower("ajudando") == "ajudando" && Lower("pessoas.") == "pessoas."
    ensures Lower("Justiça") == "justiça" && Lower("e") == "e" && Lower("igualdade.") == "igualdade."
  {
  }

  lemma MockTailWordsLower()
    ensures Words(MockTailWords()) == MockTailLower
  {
    var t := ["Responsável,", "organizado,", "ajudando", "pessoas.", "Justiça", "e", "igualdade."];
    assert Join(t) == MockTailWords();
    WordsOfJoin(t);
    MockTailTokensLower();
  }

  /** Three leading space-free tokens give three words. */
  lemma WordsAfterThree(a: string, b: string, c: string, n: string, w: string)
    requires SpaceFree(a) && SpaceFree(b) && SpaceFree(c)
    ensures Words(a + " " + (b + " " + (c + " " + (n + " " + w)))) ==
            [Lower(a), Lower(b), Lower(c)] + Words(n) + Words(w)
  {
    WordsAtSpace(a, b + " " + (c + " " + (n + " " + w)));
    WordsAtSpace(b, c + " " + (n + " " + w));
    WordsAtSpace(c, n + " " + w);
    WordsAtSpace(n, w);
    WordsOfToken(a);
    WordsOfToken(b);
    WordsOfToken(c);
  }

  lemma MockPrefixLower()
    ensures [Lower("Resposta"), Lower("simulada"), Lower("para")] == ["resposta", "simulada", "para"]
  {
    assert Lower("Resposta") == "resposta";
    assert Lower("simulada") == "simulada";
    assert Lower("para") == "para";
  }

  lemma MockWordsRaw(d: Domain)
    ensures Words(MockTranscription(d)) ==
            [Lower("Resposta"), Lower("simulada"), Lower("para")] + Words(DomainName(d) + ":") + Words(MockTailWords())
  {
    MockShape(d);
    WordsAfterThree("Resposta", "simulada", "para", DomainName(d) + ":", MockTailWords());
  }

  /** The words the fold sees in the mock answer. */
  lemma MockWords(d: Domain)
    ensures Words(MockTranscription(d)) ==
            ["resposta", "simulada", "para"] + Words(DomainName(d) + ":") + MockTailLower
  {
    MockWordsRaw(d);
    MockPrefixLower();
    MockTailWordsLower();
  }

  /** The words of a domain name followed by the colon. */
  function NameWords(d: Domain): seq<string> {
    match d
    case Autenticidade => ["autenticidade:"]
    case Valores => ["valores:"]
    case Motivacao => ["motivação:"]
    case Relacionamentos => ["relacionamentos:"]
    case ConflitosInternos => ["conflitos", "internos:"]
  }

  lemma WordsOfTwo(a: string, b: string)
    requires SpaceFree(a) && SpaceFree(b)
    ensures Words(a + " " + b) == [Lower(a), Lower(b)]
  {
    WordsAtSpace(a, b);
    WordsOfToken(a);
    WordsOfToken(b);
  }

  lemma NameLowerAccented()
    ensures Lower("Motivação:") == "motivação:"
  {
    assert !IsUpper('ç') && !IsUpper('ã');
  }

  /** The words of a one-word name followed by a colon. */
  lemma OneWordName(t: string, lower: string)
    requires SpaceFree(t) && Lower(t) == lower
    ensures Words(t) == [lower]
  {
    WordsOfToken(t);
  }

  lemma AutenticidadeWords()
    ensures Words(DomainName(Autenticidade) + ":") == ["autenticidade:"]
  {
    assert DomainName(Autenticidade) + ":" == "Autenticidade:";
    assert Lower("Autenticidade:") == "autenticidade:";
    OneWordName("Autenticidade:", "autenticidade:");
  }

  lemma ValoresWords()
    ensures Words(DomainName(Valores) + ":") == ["valores:"]
  {
    assert DomainName(Valores) + ":" == "Valores:";
    assert Lower("Valores:") == "valores:";
    OneWordName("Valores:", "valores:");
  }

  lemma MotivacaoWords()
    ensures Words(DomainName(Motivacao) + ":") == ["motivação:"]
  {
    assert DomainName(Motivacao) + ":" == "Motivação:";
    NameLowerAccented();
    OneWordName("Motivação:", "motivação:");
  }

  lemma RelacionamentosWords()
    ensures Words(DomainName(Relacionamentos) + ":") == ["relacionamentos:"]
  {
    assert DomainName(Relacionamentos) + ":" == "Relacionamentos:";
    assert Lower("Relacionamentos:") == "relacionamentos:";
    OneWordName("Relacionamentos:", "relacionamentos:");
  }

  lemma ConflitosInternosWords()
    ensures Words(DomainName(ConflitosInternos) + ":") == ["conflitos", "internos:"]
  {
    assert DomainName(ConflitosInternos) + ":" == "Conflitos" + " " + "Internos:";
    assert Lower("Conflitos") == "conflitos" && Lower("Internos:") == "internos:";
    WordsOfTwo("Conflitos", "Internos:");
  }

  /** The words a domain's name contributes to the mock answer. */
  lemma DomainWords(d: Domain)
    ensures Words(DomainName(d) + ":") == NameWords(d)
  {
    match d
    case Autenticidade => AutenticidadeWords();
    case Valores => ValoresWords();
    case Motivacao => MotivacaoWords();
    case Relacionamentos => RelacionamentosWords();
    case ConflitosInternos => ConflitosInternosWords();
  }

  const MockHead: seq<string> := ["resposta", "simulada", "para"]

  /** The mock answer's words, in three parts. */
  lemma MockWordParts(d: Domain, keywords: seq<string>)
    ensures HasKeyword(Words(MockTranscription(d)), keywords) <==>
            HasKeyword(MockHead, keywords) || HasKeyword(NameWords(d), keywords) ||
            HasKeyword(MockTailLower, keywords)
  {
    MockWords(d);
    DomainWords(d);
    HasKeywordConcat(MockHead + NameWords(d), MockTailLower, keywords);
    HasKeywordConcat(MockHead, NameWords(d), keywords);
  }

  /** No trait keyword is among the fixed words of the mock answer. */
  lemma FixedWordsMissTrait(t: Trait)
    ensures !HasKeyword(MockHead, TraitKeywords(t))
    ensures !HasKeyword(MockTailLower, TraitKeywords(t))
  {
  }

  /** No domain name is a trait keyword. */
  lemma NameMissesTrait(d: Domain, t: Trait)
    ensures !HasKeyword(NameWords(d), TraitKeywords(t))
  {
  }

  lemma MockTraitMiss(d: Domain, t: Trait)
    ensures !HasKeyword(Words(MockTranscription(d)), TraitKeywords(t))
  {
    MockWordParts(d, TraitKeywords(t));
    FixedWordsMissTrait(t);
    NameMissesTrait(d, t);
  }

  /** Neither the opening words nor a domain name is a value keyword. */
  lemma HeadAndNameMissValue(d: Domain, v: Value)
    ensures !HasKeyword(MockHead, ValueKeywords(v))
    ensures !HasKeyword(NameWords(d), ValueKeywords(v))
  {
  }

  /** "justiça" is the only value keyword among the closing words. */
  lemma TailHitsValue(v: Value)
    ensures HasKeyword(MockTailLower, ValueKeywords(v)) <==> v == Universalismo
  {
    if v == Universalismo {
      assert MockTailLower[4] in ValueKeywords(v);
    }
  }

  lemma MockValueHits(d: Domain, v: Value)
    ensures HasKeyword(Words(MockTranscription(d)), ValueKeywords(v)) <==> v == Universalismo
  {
    MockWordParts(d, ValueKeywords(v));
    HeadAndNameMissValue(d, v);
    TailHitsValue(v);
  }

  /** No contrast word is among the words of the mock answer. */
  lemma ContrastMissParts(d: Domain)
    ensures !HasKeyword(MockHead, ContrastWords)
    ensures !HasKeyword(NameWords(d), ContrastWords)
    ensures !HasKeyword(MockTailLower, ContrastWords)
  {
  }

  lemma MockContrastMiss(d: Domain)
    ensures !HasKeyword(Words(MockTranscription(d)), ContrastWords)
  {
    MockWordParts(d, ContrastWords);
    ContrastMissParts(d);
  }

  /** The only lower-case "c" of the mock answer sits inside the names
      "Autenticidade" and "Relacionamentos", followed by an "i", so the
      answer never contains "como" and is never counted as a metaphor. */
  lemma MockNoMetaphor(d: Domain)
    ensures !Includes(MockTranscription(d), "como")
    ensures !IsMetaphor(MockTranscription(d))
  {
    MockFixedPartsLackC();
    if d == Autenticidade || d == Relacionamentos {
      var a, b := NameAroundC(d);
      NoComoAround("Resposta simulada para ", a, b, MockTail);
    } else {
      NameLacksC(d);
      NotIncludesMissingChar(MockTranscription(d), "como", 0);
    }
  }

  /** The fixed text around the domain name has no lower-case "c". */
  lemma MockFixedPartsLackC()
    ensures 'c' !in "Resposta simulada para " && 'c' !in MockTail
  {
  }

  /** "Autenticidade" and "Relacionamentos" hold a single "c", followed by
      an "i". */
  lemma NameAroundC(d: Domain) returns (a: string, b: string)
    requires d == Autenticidade || d == Relacionamentos
    ensures DomainName(d) == a + ['c'] + b
    ensures 'c' !in a && 'c' !in b && |b| > 0 && b[0] != 'o'
  {
    if d == Autenticidade {
      a, b := "Autenti", "idade";
    } else {
      a, b := "Rela", "ionamentos";
    }
  }

  /** The other three names hold no lower-case "c". */
  lemma NameLacksC(d: Domain)
    requires d != Autenticidade && d != Relacionamentos
    ensures 'c' !in DomainName(d)
  {
  }

  /** A text whose single "c" is not followed by "o" lacks "como". */
  lemma NoComoAround(h: string, a: string, b: string, t: string)
    requires 'c' !in h && 'c' !in a && 'c' !in b && 'c' !in t && |b| > 0 && b[0] != 'o'
    ensures !Includes(h + (a + ['c'] + b) + t, "como")
  {
    var x, z := h + a, b + t;
    RegroupAroundChar(h, a, 'c', b, t);
    NotIncludesSingleCandidate(x, z, "como");
  }

  lemma RegroupAroundChar(h: string, a: string, c: char, b: string, t: string)
    ensures h + (a + [c] + b) + t == (h + a) + [c] + (b + t)
  {
    assert a + [c] + b == a + ([c] + b);
    assert h + (a + ([c] + b)) == (h + a) + ([c] + b);
    assert (h + a) + ([c] + b) + t == (h + a) + ([c] + (b + t));
  }

  /** The depth points the mock answer earns: its length is 88 plus the
      length of the domain name, so only the three longer names reach a
      hundred characters. */
  function MockDepth(d: Domain): nat {
    if d == Valores || d == Motivacao then 0 else 1
  }

  lemma MockLength(d: Domain)
    ensures |MockTranscription(d)| / 100 == MockDepth(d)
  {
  }

  /** The mock answer raises only `universalismo` (through "justiça"),
      counts no contradiction, and earns the depth its length gives. */
  lemma MockAnswerEffect(d: Domain, p: ExpertProfile, q: Question)
    ensures Fold(MockTranscription(d), p, q).bigFive == p.bigFive
    ensures Fold(MockTranscription(d), p, q).valores ==
            p.valores.(universalismo := Min(100, p.valores.universalismo + 8))
    ensures Fold(MockTranscription(d), p, q).metricas.metaforas == p.metricas.metaforas
    ensures Fold(MockTranscription(d), p, q).metricas.contradicoes == p.metricas.contradicoes
    ensures Fold(MockTranscription(d), p, q).metricas.profundidade == p.metricas.profundidade + MockDepth(d)
  {
    MockTraitMiss(d, Abertura);
    MockTraitMiss(d, Conscienciosidade);
    MockTraitMiss(d, Extroversao);
    MockTraitMiss(d, Amabilidade);
    MockTraitMiss(d, Neuroticismo);
    MockValueHits(d, Universalismo);
    MockValueHits(d, Benevolencia);
    MockValueHits(d, Realizacao);
    MockValueHits(d, Autodeterminacao);
    MockContrastMiss(d);
    MockNoMetaphor(d);
    MockLength(d);
  }

  /** The answer to question `i`, transcribed as the mock answer, folded
      into `p`. */
  function AnswerMock(p: ExpertProfile, i: nat): (r: ExpertProfile)
    requires i < QuestionCount
    ensures r.bigFive == p.bigFive
    ensures r.valores == p.valores.(universalismo := Min(100, p.valores.universalismo + 8))
    ensures r.metricas.metaforas == p.metricas.metaforas
    ensures r.metricas.contradicoes == p.metricas.contradicoes
    ensures |r.fragmentos| == |p.fragmentos| + 1
  {
    CatalogSize();
    MockAnswerEffect(Questions[i].domain, p, Questions[i]);
    Fold(MockTranscription(Questions[i].domain), p, Questions[i])
  }

  /** Answering a question keeps the profile well formed and adds one
      fragment. */
  lemma AnswerMockKeepsInvariant(p: ExpertProfile, i: nat)
    requires i < QuestionCount && WellFormed(p)
    ensures WellFormed(AnswerMock(p, i))
    ensures |AnswerMock(p, i).fragmentos| == |p.fragmentos| + 1
  {
    CatalogSize();
    FoldKeepsInvariant(MockTranscription(Questions[i].domain), p, Questions[i]);
  }

  /** The profile after each question of `qs`, in order, has been answered
      with the mock transcription, starting from the initial profile. */
  function MockRun(qs: seq<Question>): ExpertProfile {
    if qs == [] then Initial()
    else
      var q := qs[|qs| - 1];
      Fold(MockTranscription(q.domain), MockRun(qs[..|qs| - 1]), q)
  }

  /** The number of questions of `qs` about domain `d`. */
  function CountDomain(qs: seq<Question>, d: Domain): nat {
    if qs == [] then 0
    else CountDomain(qs[..|qs| - 1], d) + Indicator(qs[|qs| - 1].domain == d)
  }

  /** The depth points the mock answers to `qs` earn. */
  function MockDepthOf(qs: seq<Question>): nat {
    if qs == [] then 0 else MockDepthOf(qs[..|qs| - 1]) + MockDepth(qs[|qs| - 1].domain)
  }

  /** Along a run of mock answers no trait moves, `universalismo` climbs
      by eight per answer up to the cap, every other value stays at zero,
      and no contradiction is counted. */
  lemma {:induction false} MockRunScores(qs: seq<Question>)
    ensures MockRun(qs).bigFive == Initial().bigFive
    ensures MockRun(qs).valores == Initial().valores.(universalismo := Min(100, 8 * |qs|))
    ensures MockRun(qs).metricas.metaforas == 0
    ensures MockRun(qs).metricas.contradicoes == 0
  {
    if qs != [] {
      var init, q := qs[..|qs| - 1], qs[|qs| - 1];
      MockRunScores(init);
      assert MockRun(qs) == Fold(MockTranscription(q.domain), MockRun(init), q);
      MockAnswerEffect(q.domain, MockRun(init), q);
    }
  }

  /** Each domain is counted once per question about it, and there is
      one fragment per answer. */
  lemma {:induction false} MockRunCoverage(qs: seq<Question>)
    ensures forall d: Domain :: MockRun(qs).cobertura.Get(d) == CountDomain(qs, d)
    ensures |MockRun(qs).fragmentos| == |qs|
  {
    if qs != [] {
      var init, q := qs[..|qs| - 1], qs[|qs| - 1];
      MockRunCoverage(init);
      var r := Fold(MockTranscription(q.domain), MockRun(init), q);
      assert MockRun(qs) == r;
      forall d: Domain ensures r.cobertura.Get(d) == CountDomain(qs, d) {
        assert CountDomain(qs, d) == CountDomain(init, d) + Indicator(q.domain == d);
      }
    }
  }

  /** The fragment stored for the mock answer to `q`. */
  function MockFragment(q: Question): string {
    Fragment(q.domain, MockTranscription(q.domain))
  }

  /** The fragments are the mock answers to the questions, in order,
      each tagged with its domain. */
  lemma {:induction false} MockRunFragments(qs: seq<Question>)
    ensures MockRun(qs).fragmentos == MockFragments(qs)
  {
    if qs != [] {
      var init, q := qs[..|qs| - 1], qs[|qs| - 1];
      MockRunFragments(init);
      assert MockRun(qs) == Fold(MockTranscription(q.domain), MockRun(init), q);
      MockFragmentsStep(qs);
    }
  }

  /** The mock fragments of `qs`, position by position. */
  function MockFragments(qs: seq<Question>): seq<string> {
    seq(|qs|, k requires 0 <= k < |qs| => MockFragment(qs[k]))
  }

  lemma MockFragmentsStep(qs: seq<Question>)
    requires |qs| > 0
    ensures MockFragments(qs) == MockFragments(qs[..|qs| - 1]) + [MockFragment(qs[|qs| - 1])]
  {
    var init := qs[..|qs| - 1];
    forall k | 0 <= k < |qs|
      ensures MockFragments(qs)[k] == (MockFragments(init) + [MockFragment(qs[|qs| - 1])])[k]
    {
      if k < |init| {
        assert qs[k] == init[k];
      }
    }
  }

  /** A complete session stores the five mock answers, in catalogue
      order. */
  lemma CompleteMockFragments()
    ensures MockProfile(|Questions|).fragmentos == MockFragments(Questions)
  {
    assert Questions[..|Questions|] == Questions;
    MockRunFragments(Questions);
  }

  /** The depth points add up along the run. */
  lemma {:induction false} MockRunDepth(qs: seq<Question>)
    ensures MockRun(qs).metricas.profundidade == MockDepthOf(qs)
  {
    if qs != [] {
      var init, q := qs[..|qs| - 1], qs[|qs| - 1];
      MockRunDepth(init);
      assert MockRun(qs) == Fold(MockTranscription(q.domain), MockRun(init), q);
      MockAnswerEffect(q.domain, MockRun(init), q);
    }
  }

  /** Every profile along the run keeps the profile invariant. */
  lemma {:induction false} MockRunWellFormed(qs: seq<Question>)
    ensures WellFormed(MockRun(qs))
  {
    if qs != [] {
      var init, q := qs[..|qs| - 1], qs[|qs| - 1];
      MockRunWellFormed(init);
      assert MockRun(qs) == Fold(MockTranscription(q.domain), MockRun(init), q);
      FoldKeepsInvariant(MockTranscription(q.domain), MockRun(init), q);
    }
  }

  /** The profile after the first `n` questions of the catalogue. */
  function MockProfile(n: nat): ExpertProfile
    requires n <= |Questions|
  {
    MockRun(Questions[..n])
  }

  /** Answering question `i` moves the session's profile one step on. */
  lemma MockProfileStep(i: nat)
    requires i < |Questions|
    ensures MockProfile(i + 1) == AnswerMock(MockProfile(i), i)
  {
    MockRunStep(Questions, i);
  }

  /** Running one more question of `qs` folds its mock answer into the
      profile so far. */
  lemma MockRunStep(qs: seq<Question>, i: nat)
    requires i < |qs|
    ensures MockRun(qs[..i + 1]) == Fold(MockTranscription(qs[i].domain), MockRun(qs[..i]), qs[i])
  {
    assert qs[..i + 1][..i] == qs[..i];
  }

  /** Along a mock session no trait moves, `universalismo` climbs by
      eight per answer, every other value stays at zero, no contradiction
      is counted, and there is one fragment per answer. */
  lemma MockProfileScores(n: nat)
    requires n <= |Questions|
    ensures forall t: Trait :: MockProfile(n).bigFive.Get(t) == 0
    ensures MockProfile(n).valores.universalismo == 8 * n
    ensures forall v: Value :: v != Universalismo ==> MockProfile(n).valores.Get(v) == 0
    ensures MockProfile(n).metricas.metaforas == 0
    ensures MockProfile(n).metricas.contradicoes == 0
    ensures |MockProfile(n).fragmentos| == n
    ensures WellFormed(MockProfile(n))
  {
    MockRunScores(Questions[..n]);
    MockRunCoverage(Questions[..n]);
    MockRunWellFormed(Questions[..n]);
  }

  /** The catalogue asks about each domain once, and the mock answers to
      it earn three depth points. */
  lemma CatalogMockTotals()
    ensures forall d: Domain :: CountDomain(Questions, d) == 1
    ensures MockDepthOf(Questions) == 3
  {
    var a, b, c, d, e := Questions[0], Questions[1], Questions[2], Questions[3], Questions[4];
    assert Questions == [a, b, c, d, e];
    forall x: Domain ensures CountDomain(Questions, x) == 1 {
      FiveTotals(a, b, c, d, e, x);
    }
    FiveTotals(a, b, c, d, e, Valores);
  }

  /** Both totals over five questions, written out. */
  lemma FiveTotals(a: Question, b: Question, c: Question, d: Question, e: Question, x: Domain)
    ensures CountDomain([a, b, c, d, e], x) ==
            Indicator(a.domain == x) + Indicator(b.domain == x) + Indicator(c.domain == x) +
            Indicator(d.domain == x) + Indicator(e.domain == x)
    ensures MockDepthOf([a, b, c, d, e]) ==
            MockDepth(a.domain) + MockDepth(b.domain) + MockDepth(c.domain) +
            MockDepth(d.domain) + MockDepth(e.domain)
  {
    var s := [a, b, c, d, e];
    assert s[..4] == [a, b, c, d];
    assert s[..4][..3] == [a, b, c];
    assert s[..4][..3][..2] == [a, b];
    assert s[..4][..3][..2][..1] == [a];
    assert s[..4][..3][..2][..1][..0] == [];
    assert MockDepthOf([a]) == MockDepth(a.domain);
    assert MockDepthOf([a, b]) == MockDepthOf([a]) + MockDepth(b.domain);
    assert MockDepthOf([a, b, c]) == MockDepthOf([a, b]) + MockDepth(c.domain);
    assert MockDepthOf([a, b, c, d]) == MockDepthOf([a, b, c]) + MockDepth(d.domain);
    assert CountDomain([a], x) == Indicator(a.domain == x);
    assert CountDomain([a, b], x) == CountDomain([a], x) + Indicator(b.domain == x);
    assert CountDomain([a, b, c], x) == CountDomain([a, b], x) + Indicator(c.domain == x);
    assert CountDomain([a, b, c, d], x) == CountDomain([a, b, c], x) + Indicator(d.domain == x);
  }

  function Indicator(b: bool): nat {
    if b then 1 else 0
  }

  /** A complete session of mock answers counts every domain once. */
  lemma CompleteMockCoverage()
    ensures forall d: Domain :: MockProfile(|Questions|).cobertura.Get(d) == 1
  {
    assert Questions[..|Questions|] == Questions;
    MockRunCoverage(Questions);
    CatalogMockTotals();
  }

  /** It ends with a depth of three: the answers about "Autenticidade",
      "Relacionamentos" and "Conflitos Internos" are long enough for a
      point each. */
  lemma CompleteMockDepth()
    ensures MockProfile(|Questions|).metricas.profundidade == 3
  {
    assert Questions[..|Questions|] == Questions;
    MockRunDepth(Questions);
    CatalogMockTotals();
  }

  /** With no trait scored, the first trait is the dominant one. */
  lemma DominantTraitOfZeros(b: BigFive)
    requires forall t: Trait :: b.Get(t) == 0
    ensures Dominant(TraitEntries(b)) == ("abertura", 0)
  {
    var e := TraitEntries(b);
    DominantTrait(b);
    assert IsFirstMax(e, 0);
    FirstMaxUnique(e, 0, ArgMax(e));
  }

  /** With only the first value scored, it is the dominant one. */
  lemma DominantValueOfFirst(v: Schwartz)
    requires forall w: Value :: w != Universalismo ==> v.Get(w) == 0
    ensures Dominant(ValueEntries(v)) == ("universalismo", v.universalismo)
  {
    var e := ValueEntries(v);
    DominantValue(v);
    assert IsFirstMax(e, 0);
    FirstMaxUnique(e, 0, ArgMax(e));
  }

  /** Along a mock session the dominant trait is "abertura", with score
      0, since no trait ever scores and ties go to the first trait. */
  lemma MockDominantTrait(n: nat)
    requires n <= |Questions|
    ensures Dominant(TraitEntries(MockProfile(n).bigFive)) == ("abertura", 0)
  {
    MockProfileScores(n);
    DominantTraitOfZeros(MockProfile(n).bigFive);
  }

  /** Its dominant value is "universalismo", with eight points per
      answer: 40 after all five. */
  lemma MockDominantValue(n: nat)
    requires n <= |Questions|
    ensures Dominant(ValueEntries(MockProfile(n).valores)) == ("universalismo", 8 * n)
  {
    MockProfileScores(n);
    DominantValueOfFirst(MockProfile(n).valores);
  }

  /** The final report of such a session names both. */
  lemma CompleteMockReport(date: string)
    ensures Includes(Report(MockProfile(|Questions|), date), "abertura")
    ensures Includes(Report(MockProfile(|Questions|), date), "universalismo")
  {
    MockDominantTrait(|Questions|);
    MockDominantValue(|Questions|);
    ReportNamesDominant(MockProfile(|Questions|), date);
  }
}
