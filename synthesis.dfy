/** `gerarSinteseFinal`: picks the dominant trait and value and fills the
    fixed report template. The date is an opaque string supplied by the
    caller. */
module Synthesis {
  import opened Text
  import opened Profile

  type Entry = (string, nat)

  /** `sort(([,a], [,b]) => b - a)`: a stable sort by descending score,
      written as an insertion sort that processes the entries in order
      and puts each one after every entry whose score is at least its
      own. Every stable sort by the same key gives this same order. */
  function SortByScore(e: seq<Entry>): (r: seq<Entry>)
    ensures |r| == |e|
    ensures multiset(r) == multiset(e)
  {
    if e == [] then []
    else
      assert e == e[..|e| - 1] + [e[|e| - 1]];
      Insert(e[|e| - 1], SortByScore(e[..|e| - 1]))
  }

  function Insert(x: Entry, s: seq<Entry>): (r: seq<Entry>)
    ensures |r| == |s| + 1
    ensures multiset(r) == multiset(s) + multiset{x}
    ensures r[0] == if s == [] || x.1 > s[0].1 then x else s[0]
  {
    if s == [] || x.1 > s[0].1 then [x] + s
    else
      assert s == [s[0]] + s[1..];
      [s[0]] + Insert(x, s[1..])
  }

  predicate Descending(s: seq<Entry>) {
    forall i, j :: 0 <= i < j < |s| ==> s[i].1 >= s[j].1
  }

  /** Every score of `s` is at most `b`. */
  predicate ScoresAtMost(s: seq<Entry>, b: nat) {
    forall k :: 0 <= k < |s| ==> s[k].1 <= b
  }

  /** Inserting an entry under a bound keeps every score under it. */
  lemma {:induction false} InsertAtMost(x: Entry, s: seq<Entry>, b: nat)
    requires x.1 <= b && ScoresAtMost(s, b)
    ensures ScoresAtMost(Insert(x, s), b)
  {
    if s != [] && x.1 <= s[0].1 {
      InsertAtMost(x, s[1..], b);
      assert Insert(x, s) == [s[0]] + Insert(x, s[1..]);
    }
  }

  /** Inserting into a descending sequence keeps it descending. */
  lemma {:induction false} InsertDescending(x: Entry, s: seq<Entry>)
    requires Descending(s)
    ensures Descending(Insert(x, s))
  {
    if s != [] && x.1 <= s[0].1 {
      var rest := Insert(x, s[1..]);
      InsertDescending(x, s[1..]);
      InsertAtMost(x, s[1..], s[0].1);
      assert Insert(x, s) == [s[0]] + rest;
    }
  }

  /** The sort returns the entries in descending score order. */
  lemma {:induction false} SortDescending(e: seq<Entry>)
    ensures Descending(SortByScore(e))
  {
    if e != [] {
      SortDescending(e[..|e| - 1]);
      InsertDescending(e[|e| - 1], SortByScore(e[..|e| - 1]));
    }
  }

  /** `k` is the first position holding the highest score of `e`. */
  predicate IsFirstMax(e: seq<Entry>, k: nat) {
    k < |e| &&
    (forall j :: 0 <= j < |e| ==> e[j].1 <= e[k].1) &&
    (forall j :: 0 <= j < k ==> e[j].1 < e[k].1)
  }

  /** The first position holding the highest score. */
  function ArgMax(e: seq<Entry>): (k: nat)
    requires |e| > 0
    ensures IsFirstMax(e, k)
  {
    if |e| == 1 then 0
    else
      var k := ArgMax(e[..|e| - 1]);
      if e[|e| - 1].1 > e[k].1 then |e| - 1 else k
  }

  /** There is only one first maximum. */
  lemma FirstMaxUnique(e: seq<Entry>, k1: nat, k2: nat)
    requires IsFirstMax(e, k1) && IsFirstMax(e, k2)
    ensures k1 == k2
  {
    assert e[k1].1 == e[k2].1;
  }

  /** The head of the stable descending sort is the first maximum. */
  lemma {:induction false} SortHeadIsFirstMax(e: seq<Entry>)
    requires |e| > 0
    ensures SortByScore(e)[0] == e[ArgMax(e)]
  {
    if |e| > 1 {
      var init := e[..|e| - 1];
      SortHeadIsFirstMax(init);
      assert init[ArgMax(init)] == e[ArgMax(init)];
    }
  }

  /** `Object.entries(record).sort(...)[0] || ['N/A', 0]`. */
  function Dominant(e: seq<Entry>): (r: Entry)
    ensures |e| == 0 ==> r == ("N/A", 0)
    ensures |e| > 0 ==> exists k: nat :: IsFirstMax(e, k) && r == e[k]
  {
    var sorted := SortByScore(e);
    if |sorted| == 0 then ("N/A", 0)
    else
      SortHeadIsFirstMax(e);
      sorted[0]
  }

  /** The dominant trait is the trait at the first position, in
      declaration order, holding the highest score; the placeholder never
      shows for a profile. */
  lemma DominantTrait(b: BigFive)
    ensures var k := ArgMax(TraitEntries(b));
            Dominant(TraitEntries(b)) == (TraitName(TraitOrder[k]), b.Get(TraitOrder[k]))
  {
    var e := TraitEntries(b);
    assert |e| > 0;
    var r := Dominant(e);
    assert exists k: nat :: IsFirstMax(e, k) && r == e[k];
    var k: nat :| IsFirstMax(e, k) && r == e[k];
    FirstMaxUnique(e, k, ArgMax(e));
  }

  /** The dominant value is the value at the first position, in
      declaration order, holding the highest score. */
  lemma DominantValue(v: Schwartz)
    ensures var k := ArgMax(ValueEntries(v));
            Dominant(ValueEntries(v)) == (ValueName(ValueOrder[k]), v.Get(ValueOrder[k]))
  {
    var e := ValueEntries(v);
    assert |e| > 0;
    var r := Dominant(e);
    assert exists k: nat :: IsFirstMax(e, k) && r == e[k];
    var k: nat :| IsFirstMax(e, k) && r == e[k];
    FirstMaxUnique(e, k, ArgMax(e));
  }

  const Banner: string := "=== RELATÓRIO DNA - DEEP NARRATIVE ANALYSIS ==="
  const Footer: string := "=== FIM DO RELATÓRIO ==="

  /** The report template, section by section: fixed text alternating
      with the interpolated values. */
  function Header(date: string): string {
    Concat([Banner, "\nData: ", date, "\n\n"])
  }

  /** The phrase of the summary that states the number of answers. */
  function CountPhrase(count: nat): string {
    "baseada em " + NatToString(count) + " narrativas"
  }

  function Summary(count: nat): string {
    Concat(["RESUMO EXECUTIVO:\nAnálise completa ", CountPhrase(count), " pessoais.\n\n"])
  }

  /** The score in brackets after a dominant key. */
  function ScoreSuffix(score: nat): string {
    " (Score: " + NatToString(score) + ")"
  }

  /** The line that names the dominant trait with its score. */
  function TraitLine(topTrait: Entry): string {
    "- Traço Dominante: " + topTrait.0 + ScoreSuffix(topTrait.1)
  }

  /** The line that names the dominant value with its score. */
  function ValueLine(topValue: Entry): string {
    "- Valor Principal: " + topValue.0 + ScoreSuffix(topValue.1)
  }

  function PersonalitySection(topTrait: Entry): string {
    Concat(["PERFIL DE PERSONALIDADE (Big Five):\n", TraitLine(topTrait), "\n"])
  }

  function TraitScoresSection(b: BigFive): string {
    Concat(["- Abertura: ", NatToString(b.abertura),
            "/100 | Conscienciosidade: ", NatToString(b.conscienciosidade),
            "/100\n- Extroversão: ", NatToString(b.extroversao),
            "/100 | Amabilidade: ", NatToString(b.amabilidade),
            "/100\n- Neuroticismo: ", NatToString(b.neuroticismo), "/100\n\n"])
  }

  function ValuesSection(topValue: Entry): string {
    Concat(["SISTEMA DE VALORES (Schwartz):\n", ValueLine(topValue), "\n\n"])
  }

  function MetricsSection(m: Metrics): string {
    Concat(["MÉTRICAS NARRATIVAS:\n- Metáforas Detectadas: ", NatToString(m.metaforas),
            " | Padrões Complexos: ", NatToString(m.contradicoes),
            " | Profundidade Narrativa: ", NatToString(m.profundidade), "\n\n"])
  }

  function InsightsSection(topTrait: string, topValue: string): string {
    Concat(["INSIGHTS PRINCIPAIS:\nSua narrativa revela um perfil com predominância em ", topTrait,
            ". O valor predominante de ", topValue,
            " sugere motivações profundas que orientam suas decisões.\n\n"])
  }

  function RecommendationsSection(topTrait: string, topValue: string): string {
    Concat(["RECOMENDAÇÕES:\n1. Desenvolver ainda mais as características de ", topTrait,
            ".\n2. Explorar oportunidades alinhadas com ", topValue,
            ".\n3. Considerar coaching para maximizar potencial identificado.\n\n"])
  }

  const SectionCount: nat := 9

  /** Section `k` of the report, in template order. */
  function Section(p: ExpertProfile, date: string, k: nat): string
    requires k < SectionCount
  {
    if k == 0 then Header(date)
    else if k == 1 then Summary(|p.fragmentos|)
    else if k == 2 then PersonalitySection(Dominant(TraitEntries(p.bigFive)))
    else if k == 3 then TraitScoresSection(p.bigFive)
    else if k == 4 then ValuesSection(Dominant(ValueEntries(p.valores)))
    else if k == 5 then MetricsSection(p.metricas)
    else if k == 6 then InsightsSection(Dominant(TraitEntries(p.bigFive)).0, Dominant(ValueEntries(p.valores)).0)
    else if k == 7 then RecommendationsSection(Dominant(TraitEntries(p.bigFive)).0, Dominant(ValueEntries(p.valores)).0)
    else Footer
  }

  function Sections(p: ExpertProfile, date: string): seq<string> {
    seq(SectionCount, k requires 0 <= k < SectionCount => Section(p, date, k))
  }

  /** `gerarSinteseFinal(perfil)` after `.trim()`: the template's leading
      line break is dropped, and nothing interpolated can reach either
      end, so the report starts with its banner line and ends with its
      closing line. */
  function Report(p: ExpertProfile, date: string): (r: string)
    ensures |r| >= |Banner| + |Footer|
    ensures r[..|Banner|] == Banner
    ensures r[|r| - |Footer|..] == Footer
  {
    SectionsFrame(p, date);
    Concat(Sections(p, date))
  }

  /** The sections start with the banner line and end with the closing
      line. */
  lemma SectionsFrame(p: ExpertProfile, date: string)
    ensures var r := Concat(Sections(p, date));
            |r| >= |Banner| + |Footer| && r[..|Banner|] == Banner && r[|r| - |Footer|..] == Footer
  {
    var sections := Sections(p, date);
    assert sections[0] == Header(date);
    assert sections[SectionCount - 1] == Footer;
    ConcatEnds(sections);
    ConcatEnds([Banner, "\nData: ", date, "\n\n"]);
    assert sections[0][..|Banner|] == Banner;
  }

  /** The report states the number of answers, in its summary line. */
  lemma ReportCount(p: ExpertProfile, date: string)
    ensures Includes(Report(p, date), "baseada em " + NatToString(|p.fragmentos|) + " narrativas")
  {
    var sections := Sections(p, date);
    ConcatIncludesVia(sections, 1, ["RESUMO EXECUTIVO:\nAnálise completa ", CountPhrase(|p.fragmentos|), " pessoais.\n\n"], 1);
  }

  /** The report names the dominant trait and the dominant value, each on
      its own line followed by its score. */
  lemma ReportNamesDominant(p: ExpertProfile, date: string)
    ensures Includes(Report(p, date), TraitLine(Dominant(TraitEntries(p.bigFive))))
    ensures Includes(Report(p, date), ValueLine(Dominant(ValueEntries(p.valores))))
    ensures Includes(Report(p, date), Dominant(TraitEntries(p.bigFive)).0)
    ensures Includes(Report(p, date), Dominant(ValueEntries(p.valores)).0)
  {
    ReportTraitLine(p, date);
    ReportValueLine(p, date);
  }

  lemma ReportTraitLine(p: ExpertProfile, date: string)
    ensures Includes(Report(p, date), TraitLine(Dominant(TraitEntries(p.bigFive))))
    ensures Includes(Report(p, date), Dominant(TraitEntries(p.bigFive)).0)
  {
    var top := Dominant(TraitEntries(p.bigFive));
    ConcatIncludesVia(Sections(p, date), 2, ["PERFIL DE PERSONALIDADE (Big Five):\n", TraitLine(top), "\n"], 1);
    IncludesMiddle("- Traço Dominante: ", top.0, ScoreSuffix(top.1));
    IncludesTrans(Report(p, date), TraitLine(top), top.0);
  }

  lemma ReportValueLine(p: ExpertProfile, date: string)
    ensures Includes(Report(p, date), ValueLine(Dominant(ValueEntries(p.valores))))
    ensures Includes(Report(p, date), Dominant(ValueEntries(p.valores)).0)
  {
    var top := Dominant(ValueEntries(p.valores));
    ConcatIncludesVia(Sections(p, date), 4, ["SISTEMA DE VALORES (Schwartz):\n", ValueLine(top), "\n\n"], 1);
    IncludesMiddle("- Valor Principal: ", top.0, ScoreSuffix(top.1));
    IncludesTrans(Report(p, date), ValueLine(top), top.0);
  }

  /** The report carries the date. */
  lemma ReportDate(p: ExpertProfile, date: string)
    ensures Includes(Report(p, date), date)
  {
    ConcatIncludesVia(Sections(p, date), 0, [Banner, "\nData: ", date, "\n\n"], 2);
  }
}
