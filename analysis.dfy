/** The analysis engine's `analisarFragmento`, which folds one transcribed
    answer into the profile. It is pure: the source deep-copies the
    profile before changing the copy, so the caller's profile is never
    touched, which is what returning a new datatype value expresses. The
    engine's other half, `gerarSinteseFinal`, is module `Synthesis`. */
module Analysis {
  import opened Text
  import opened Catalog
  import opened Profile

  const TraitStep: nat := 10
  const ValueStep: nat := 8
  const MaxScore: nat := 100

  /** The three keywords that raise each trait. */
  function TraitKeywords(t: Trait): seq<string> {
    match t
    case Abertura => ["criativo", "inovador", "original"]
    case Conscienciosidade => ["responsável", "organizado", "disciplinado"]
    case Extroversao => ["social", "grupos", "pessoas"]
    case Amabilidade => ["ajudar", "cuidar", "gentil"]
    case Neuroticismo => ["ansioso", "preocupado", "estressado"]
  }

  /** The three keywords that raise each value; the six values the engine
      never scores have none. */
  function ValueKeywords(v: Value): seq<string> {
    match v
    case Universalismo => ["justiça", "igualdade", "mundo"]
    case Benevolencia => ["família", "amigos", "ajudar"]
    case Realizacao => ["sucesso", "conquista", "objetivo"]
    case Autodeterminacao => ["liberdade", "independência", "autonomia"]
    case _ => []
  }

  /** Contrastive conjunctions counted as contradictions. */
  const ContrastWords: seq<string> := ["mas", "porém", "entretanto"]

  predicate ScoredValue(v: Value) {
    v == Universalismo || v == Benevolencia || v == Realizacao || v == Autodeterminacao
  }

  /** `transcricao.toLowerCase().split(' ')`. */
  function Words(text: string): (r: seq<string>)
    ensures |r| >= 1
    ensures forall k :: 0 <= k < |r| ==> SpaceFree(r[k])
    ensures Join(r) == Lower(text)
  {
    SplitTokens(Lower(text));
    JoinSplit(Lower(text));
    Split(Lower(text))
  }

  /** The words on either side of a space are found separately. */
  lemma WordsAtSpace(a: string, b: string)
    ensures Words(a + " " + b) == Words(a) + Words(b)
  {
    LowerConcat(a, " " + b);
    LowerConcat(" ", b);
    assert Lower(" ") == " ";
    assert a + " " + b == a + (" " + b);
    SplitAtSpace(Lower(a), Lower(b));
    assert Lower(a) + (" " + Lower(b)) == Lower(a) + " " + Lower(b);
  }

  /** A text without spaces is one word, lower-cased. */
  lemma WordsOfToken(t: string)
    requires SpaceFree(t)
    ensures Words(t) == [Lower(t)]
  {
    forall i | 0 <= i < |t| ensures Lower(t)[i] != ' ' {
      LowerKeepsSpaces(t[i]);
    }
    SplitSpaceFree(Lower(t));
  }

  /** `palavras.some(p => keywords.includes(p))`. */
  predicate HasKeyword(words: seq<string>, keywords: seq<string>) {
    exists i :: 0 <= i < |words| && words[i] in keywords
  }

  /** A keyword occurs in two word lists put together exactly when it
      occurs in one of them. */
  lemma HasKeywordConcat(a: seq<string>, b: seq<string>, keywords: seq<string>)
    ensures HasKeyword(a + b, keywords) <==> HasKeyword(a, keywords) || HasKeyword(b, keywords)
  {
    if HasKeyword(a + b, keywords) {
      var i :| 0 <= i < |a + b| && (a + b)[i] in keywords;
      if i >= |a| {
        assert b[i - |a|] == (a + b)[i];
      }
    }
    if HasKeyword(a, keywords) {
      var i :| 0 <= i < |a| && a[i] in keywords;
      assert (a + b)[i] == a[i];
    }
    if HasKeyword(b, keywords) {
      var i :| 0 <= i < |b| && b[i] in keywords;
      assert (a + b)[|a| + i] == b[i];
    }
  }

  function Min(a: nat, b: nat): nat {
    if a <= b then a else b
  }

  /** `score = Math.min(100, score + step)` when `hit`, else unchanged. */
  function Bump(score: nat, hit: bool, step: nat): (r: nat)
    ensures !hit ==> r == score
    ensures r <= score + step
    ensures score <= MaxScore ==> score <= r <= MaxScore
  {
    if hit then Min(MaxScore, score + step) else score
  }

  /** The metaphor heuristic, on the raw (not lower-cased) text. */
  predicate IsMetaphor(text: string) {
    Includes(text, "como") && (Includes(text, "igual") || Includes(text, "parece"))
  }

  /** The fragment stored for an answer: `[domain] text`. */
  function Fragment(d: Domain, text: string): (r: string)
    ensures |r| == |DomainName(d)| + 3 + |text|
    ensures r[0] == '[' && r[|r| - |text|..] == text
  {
    "[" + DomainName(d) + "] " + text
  }

  /** `analisarFragmento(transcricao, perfil, pergunta)`. */
  function Fold(text: string, p: ExpertProfile, q: Question): (r: ExpertProfile)
    ensures r.fragmentos == p.fragmentos + [Fragment(q.domain, text)]
    ensures r.cobertura.Get(q.domain) == p.cobertura.Get(q.domain) + 1
    ensures forall d: Domain :: d != q.domain ==> r.cobertura.Get(d) == p.cobertura.Get(d)
  {
    var words := Words(text);
    var b := p.bigFive;
    var v := p.valores;
    var m := p.metricas;
    ExpertProfile(
      BigFive(
        Bump(b.abertura, HasKeyword(words, TraitKeywords(Abertura)), TraitStep),
        Bump(b.conscienciosidade, HasKeyword(words, TraitKeywords(Conscienciosidade)), TraitStep),
        Bump(b.extroversao, HasKeyword(words, TraitKeywords(Extroversao)), TraitStep),
        Bump(b.amabilidade, HasKeyword(words, TraitKeywords(Amabilidade)), TraitStep),
        Bump(b.neuroticismo, HasKeyword(words, TraitKeywords(Neuroticismo)), TraitStep)),
      v.(universalismo := Bump(v.universalismo, HasKeyword(words, ValueKeywords(Universalismo)), ValueStep),
         benevolencia := Bump(v.benevolencia, HasKeyword(words, ValueKeywords(Benevolencia)), ValueStep),
         realizacao := Bump(v.realizacao, HasKeyword(words, ValueKeywords(Realizacao)), ValueStep),
         autodeterminacao := Bump(v.autodeterminacao, HasKeyword(words, ValueKeywords(Autodeterminacao)), ValueStep)),
      p.cobertura.Inc(q.domain),
      Metrics(
        m.metaforas + (if IsMetaphor(text) then 1 else 0),
        m.contradicoes + (if HasKeyword(words, ContrastWords) then 1 else 0),
        m.profundidade + |text| / 100),
      p.fragmentos + [Fragment(q.domain, text)])
  }

  /** Each trait rises by the trait step, capped at 100, exactly when some
      word of the answer is one of its keywords, and is unchanged
      otherwise. */
  lemma FoldTraitScore(text: string, p: ExpertProfile, q: Question, t: Trait)
    ensures Fold(text, p, q).bigFive.Get(t) ==
            if HasKeyword(Words(text), TraitKeywords(t)) then Min(100, p.bigFive.Get(t) + 10)
            else p.bigFive.Get(t)
  {
  }

  /** Each value with keywords rises by the value step, capped at 100,
      exactly when some word is one of its keywords; the other six values
      never change. */
  lemma FoldValueScore(text: string, p: ExpertProfile, q: Question, v: Value)
    ensures ScoredValue(v) ==>
              Fold(text, p, q).valores.Get(v) ==
              if HasKeyword(Words(text), ValueKeywords(v)) then Min(100, p.valores.Get(v) + 8)
              else p.valores.Get(v)
    ensures !ScoredValue(v) ==> Fold(text, p, q).valores.Get(v) == p.valores.Get(v)
  {
  }

  /** The metrics: one metaphor for a "como" with an "igual" or "parece",
      one contradiction for a contrastive word, and one depth point per
      full hundred characters. */
  lemma FoldMetrics(text: string, p: ExpertProfile, q: Question)
    ensures Fold(text, p, q).metricas.metaforas ==
            p.metricas.metaforas + (if IsMetaphor(text) then 1 else 0)
    ensures Fold(text, p, q).metricas.contradicoes ==
            p.metricas.contradicoes + (if HasKeyword(Words(text), ContrastWords) then 1 else 0)
    ensures Fold(text, p, q).metricas.profundidade == p.metricas.profundidade + |text| / 100
  {
  }

  /** The fold keeps the profile invariant: scores that start within
      0..100 stay there and never decrease, each rises by at most one step
      however many keywords match, and the answer counter still equals the
      number of fragments. */
  lemma {:induction false} FoldKeepsInvariant(text: string, p: ExpertProfile, q: Question)
    requires WellFormed(p)
    ensures WellFormed(Fold(text, p, q))
    ensures ScoresAtLeast(Fold(text, p, q), p)
    ensures forall t: Trait :: Fold(text, p, q).bigFive.Get(t) <= p.bigFive.Get(t) + TraitStep
    ensures forall v: Value :: Fold(text, p, q).valores.Get(v) <= p.valores.Get(v) + ValueStep
  {
    var r := Fold(text, p, q);
    forall t: Trait
      ensures p.bigFive.Get(t) <= r.bigFive.Get(t) <= 100
      ensures r.bigFive.Get(t) <= p.bigFive.Get(t) + TraitStep
    {
      FoldTraitScore(text, p, q, t);
    }
    forall v: Value
      ensures p.valores.Get(v) <= r.valores.Get(v) <= 100
      ensures r.valores.Get(v) <= p.valores.Get(v) + ValueStep
    {
      FoldValueScore(text, p, q, v);
    }
  }

  /** An empty answer changes only the domain counter and the fragments:
      every score and metric is left as it was. */
  lemma FoldEmptyAnswer(p: ExpertProfile, q: Question)
    ensures Fold("", p, q) == p.(cobertura := p.cobertura.Inc(q.domain),
                                 fragmentos := p.fragmentos + [Fragment(q.domain, "")])
  {
    EmptyAnswerWords();
  }

  /** The empty answer is the one empty word, and no keyword list holds
      the empty word. */
  lemma EmptyAnswerWords()
    ensures Words("") == [""]
    ensures forall t: Trait :: !HasKeyword([""], TraitKeywords(t))
    ensures forall v: Value :: !HasKeyword([""], ValueKeywords(v))
    ensures !HasKeyword([""], ContrastWords)
  {
    assert Lower("") == "";
  }

  /** The words of a sample answer, "sou muito responsável e organizado",
      which names two conscientiousness keywords. */
  const SampleWords: seq<string> := ["sou", "muito", "responsável", "e", "organizado"]

  /** Space-free tokens joined by single spaces split back into the
      tokens, lower-cased. */
  lemma {:induction false} WordsOfJoin(t: seq<string>)
    requires |t| >= 1
    requires forall k :: 0 <= k < |t| ==> SpaceFree(t[k])
    ensures Words(Join(t)) == seq(|t|, k requires 0 <= k < |t| => Lower(t[k]))
  {
    WordsOfToken(t[0]);
    if |t| > 1 {
      WordsAtSpace(t[0], Join(t[1..]));
      WordsOfJoin(t[1..]);
    }
  }

  /** Lower-casing and splitting the sample answer gives back its words. */
  lemma SampleSentenceWords()
    ensures Words(Join(SampleWords)) == SampleWords
  {
    WordsOfJoin(SampleWords);
    assert Lower("sou") == "sou" && Lower("muito") == "muito" && Lower("responsável") == "responsável";
    assert Lower("e") == "e" && Lower("organizado") == "organizado";
  }

  /** Of all traits, only conscientiousness has a keyword among the sample
      words. */
  lemma SampleTraitHits(t: Trait)
    ensures HasKeyword(SampleWords, TraitKeywords(t)) <==> t == Conscienciosidade
  {
    if t == Conscienciosidade {
      assert SampleWords[2] in TraitKeywords(t);
    }
  }

  lemma SampleValueMisses(v: Value)
    ensures !HasKeyword(SampleWords, ValueKeywords(v))
  {
  }

  /** Two keywords of the same trait in one answer raise it once: an
      answer with the sample words adds exactly one step to
      conscientiousness and touches no other trait or value. */
  lemma FoldRepeatedKeyword(text: string, p: ExpertProfile, q: Question)
    requires Words(text) == SampleWords
    requires p.bigFive.conscienciosidade <= 90
    ensures Fold(text, p, q).bigFive == p.bigFive.(conscienciosidade := p.bigFive.conscienciosidade + 10)
    ensures Fold(text, p, q).valores == p.valores
  {
    SampleTraitHits(Abertura);
    SampleTraitHits(Conscienciosidade);
    SampleTraitHits(Extroversao);
    SampleTraitHits(Amabilidade);
    SampleTraitHits(Neuroticismo);
    SampleValueMisses(Universalismo);
    SampleValueMisses(Benevolencia);
    SampleValueMisses(Realizacao);
    SampleValueMisses(Autodeterminacao);
  }

  /** The word "ajudar" is a keyword of both agreeableness and
      benevolence, so it raises both. */
  lemma {:induction false} FoldHelpRaisesTwo(text: string, p: ExpertProfile, q: Question)
    requires "ajudar" in Words(text)
    ensures Fold(text, p, q).bigFive.amabilidade == Min(100, p.bigFive.amabilidade + 10)
    ensures Fold(text, p, q).valores.benevolencia == Min(100, p.valores.benevolencia + 8)
  {
    var i :| 0 <= i < |Words(text)| && Words(text)[i] == "ajudar";
    assert Words(text)[i] in TraitKeywords(Amabilidade);
    assert Words(text)[i] in ValueKeywords(Benevolencia);
  }

  /** A "como" followed anywhere by a "parece" makes a metaphor. */
  lemma MetaphorComoParece(a: string, b: string, c: string)
    ensures IsMetaphor(a + "como" + b + "parece" + c)
  {
    assert a + "como" + b + "parece" + c == a + "como" + (b + "parece" + c);
    IncludesMiddle(a, "como", b + "parece" + c);
    IncludesMiddle(a + "como" + b, "parece", c);
  }

  /** "como" alone is no metaphor. */
  lemma ComoAloneIsNoMetaphor(text: string)
    requires text == "como vai você"
    ensures !IsMetaphor(text)
  {
    NotIncludesMissingChar(text, "igual", 1);
    NotIncludesMissingChar(text, "parece", 0);
  }
}
