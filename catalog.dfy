/** The fixed question catalogue (`PERGUNTAS_DNA`) and the five domains
    its questions are tagged with. */
module Catalog {

  datatype Domain = Autenticidade | Valores | Motivacao | Relacionamentos | ConflitosInternos

  /** The key under which a domain appears in the question and in the
      coverage record. */
  function DomainName(d: Domain): string {
    match d
    case Autenticidade => "Autenticidade"
    case Valores => "Valores"
    case Motivacao => "Motivação"
    case Relacionamentos => "Relacionamentos"
    case ConflitosInternos => "Conflitos Internos"
  }

  /** One spoken prompt; `audioUrl` is an opaque locator handed to the
      audio player. The prompt's wording is `Text`. */
  datatype Question = Question(id: nat, domain: Domain, audioUrl: string)

  const Bell: string := "https://www.soundjay.com/misc/sounds/bell-ringing-05.wav"

  const Questions: seq<Question> := [
    Question(1, Autenticidade, Bell),
    Question(2, Valores, Bell),
    Question(3, Motivacao, Bell),
    Question(4, Relacionamentos, Bell),
    Question(5, ConflitosInternos, Bell)
  ]

  /** The wording of a question (`texto`). Each domain has exactly one
      question, so the domain determines it. */
  function Text(q: Question): string {
    match q.domain
    case Autenticidade => "Descreva um momento da sua vida em que você se sentiu mais autêntico e verdadeiro consigo mesmo."
    case Valores => "Conte sobre uma decisão difícil que você tomou e como ela reflete seus valores fundamentais."
    case Motivacao => "Qual é sua maior motivação na vida e como ela se manifesta em suas ações diárias?"
    case Relacionamentos => "Descreva um relacionamento que mudou fundamentalmente sua perspectiva sobre si mesmo."
    case ConflitosInternos => "Como você lida com conflitos internos entre o que quer fazer e o que sente que deve fazer?"
  }

  /** The number of questions in the catalogue. */
  const QuestionCount: nat := 5

  /** The catalogue holds `QuestionCount` questions. */
  lemma CatalogSize()
    ensures |Questions| == QuestionCount
  {
  }

  /** The catalogue asks five questions, numbered 1 to 5 in order. */
  lemma CatalogNumbering()
    ensures forall i :: 0 <= i < |Questions| ==> Questions[i].id == i + 1
  {
  }

  /** The domains of the questions, in catalogue order. */
  lemma CatalogDomainOrder()
    ensures forall i :: 0 <= i < |Questions| ==>
              Questions[i].domain == [Autenticidade, Valores, Motivacao, Relacionamentos, ConflitosInternos][i]
  {
  }

  /** No domain is asked about twice. */
  lemma CatalogDomainsDistinct()
    ensures forall i, j :: 0 <= i < j < |Questions| ==> Questions[i].domain != Questions[j].domain
  {
    CatalogDomainOrder();
  }

  /** Every domain is asked about, so a full session covers them all. */
  lemma CatalogDomains()
    ensures (set q | q in Questions :: q.domain) ==
            {Autenticidade, Valores, Motivacao, Relacionamentos, ConflitosInternos}
  {
    CatalogDomainOrder();
    assert Questions[0] in Questions && Questions[1] in Questions && Questions[2] in Questions;
    assert Questions[3] in Questions && Questions[4] in Questions;
  }

  /** The position of the question about a domain. */
  lemma DomainIndex(d: Domain) returns (k: nat)
    ensures k < |Questions| && Questions[k].domain == d
  {
    match d
    case Autenticidade => k := 0;
    case Valores => k := 1;
    case Motivacao => k := 2;
    case Relacionamentos => k := 3;
    case ConflitosInternos => k := 4;
  }

  /** Distinct domains have distinct keys, so a counter keyed by name is a
      counter per domain. */
  lemma DomainNameInjective(d: Domain, e: Domain)
    ensures DomainName(d) == DomainName(e) ==> d == e
  {
    if d != e {
      match d {
        case Autenticidade => assert DomainName(d)[0] == 'A';
        case Valores => assert DomainName(d)[0] == 'V';
        case Motivacao => assert DomainName(d)[0] == 'M';
        case Relacionamentos => assert DomainName(d)[0] == 'R';
        case ConflitosInternos => assert DomainName(d)[0] == 'C';
      }
      match e
      case Autenticidade => assert DomainName(e)[0] == 'A';
      case Valores => assert DomainName(e)[0] == 'V';
      case Motivacao => assert DomainName(e)[0] == 'M';
      case Relacionamentos => assert DomainName(e)[0] == 'R';
      case ConflitosInternos => assert DomainName(e)[0] == 'C';
    }
  }
}
