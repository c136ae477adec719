/** The accumulated expert profile (`ExpertProfile`) and its zero value
    (`criarPerfilInicial`). The source keeps each group as a record keyed
    by name; since the keys are fixed when the profile is created, each
    group is a datatype with one field per key here, and an enumeration
    of the keys in declaration order gives the name-keyed view. */
module Profile {
  import opened Catalog

  /** The Big Five personality traits, in declaration order. */
  datatype Trait = Abertura | Conscienciosidade | Extroversao | Amabilidade | Neuroticismo

  const TraitOrder: seq<Trait> := [Abertura, Conscienciosidade, Extroversao, Amabilidade, Neuroticismo]

  function TraitName(t: Trait): string {
    match t
    case Abertura => "abertura"
    case Conscienciosidade => "conscienciosidade"
    case Extroversao => "extroversao"
    case Amabilidade => "amabilidade"
    case Neuroticismo => "neuroticismo"
  }

  /** The ten Schwartz values, in declaration order. */
  datatype Value = Universalismo | Benevolencia | Tradicao | Conformidade | Seguranca
                 | Poder | Realizacao | Hedonismo | Estimulacao | Autodeterminacao

  const ValueOrder: seq<Value> := [Universalismo, Benevolencia, Tradicao, Conformidade, Seguranca,
                                   Poder, Realizacao, Hedonismo, Estimulacao, Autodeterminacao]

  function ValueName(v: Value): string {
    match v
    case Universalismo => "universalismo"
    case Benevolencia => "benevolencia"
    case Tradicao => "tradicao"
    case Conformidade => "conformidade"
    case Seguranca => "seguranca"
    case Poder => "poder"
    case Realizacao => "realizacao"
    case Hedonismo => "hedonismo"
    case Estimulacao => "estimulacao"
    case Autodeterminacao => "autodeterminacao"
  }

  datatype BigFive = BigFive(abertura: nat, conscienciosidade: nat, extroversao: nat,
                             amabilidade: nat, neuroticismo: nat)
  {
    function Get(t: Trait): nat {
      match t
      case Abertura => abertura
      case Conscienciosidade => conscienciosidade
      case Extroversao => extroversao
      case Amabilidade => amabilidade
      case Neuroticismo => neuroticismo
    }
  }

  datatype Schwartz = Schwartz(universalismo: nat, benevolencia: nat, tradicao: nat, conformidade: nat,
                               seguranca: nat, poder: nat, realizacao: nat, hedonismo: nat,
                               estimulacao: nat, autodeterminacao: nat)
  {
    function Get(v: Value): nat {
      match v
      case Universalismo => universalismo
      case Benevolencia => benevolencia
      case Tradicao => tradicao
      case Conformidade => conformidade
      case Seguranca => seguranca
      case Poder => poder
      case Realizacao => realizacao
      case Hedonismo => hedonismo
      case Estimulacao => estimulacao
      case Autodeterminacao => autodeterminacao
    }
  }

  /** `coberturaDominios`: one answer counter per catalogue domain. */
  datatype Coverage = Coverage(autenticidade: nat, valores: nat, motivacao: nat,
                               relacionamentos: nat, conflitosInternos: nat)
  {
    function Get(d: Domain): nat {
      match d
      case Autenticidade => autenticidade
      case Valores => valores
      case Motivacao => motivacao
      case Relacionamentos => relacionamentos
      case ConflitosInternos => conflitosInternos
    }

    /** The "Respostas" figure of the live statistics: the sum of all
        counters. */
    function Total(): nat {
      autenticidade + valores + motivacao + relacionamentos + conflitosInternos
    }

    /** `coberturaDominios[d] += 1`. */
    function Inc(d: Domain): (c: Coverage)
      ensures c.Get(d) == Get(d) + 1
      ensures forall e: Domain :: e != d ==> c.Get(e) == Get(e)
      ensures c.Total() == Total() + 1
    {
      match d
      case Autenticidade => this.(autenticidade := autenticidade + 1)
      case Valores => this.(valores := valores + 1)
      case Motivacao => this.(motivacao := motivacao + 1)
      case Relacionamentos => this.(relacionamentos := relacionamentos + 1)
      case ConflitosInternos => this.(conflitosInternos := conflitosInternos + 1)
    }
  }

  datatype Metrics = Metrics(metaforas: nat, contradicoes: nat, profundidade: nat)

  datatype ExpertProfile = ExpertProfile(bigFive: BigFive, valores: Schwartz, cobertura: Coverage,
                                         metricas: Metrics, fragmentos: seq<string>)

  /** `criarPerfilInicial`: every score, counter and metric zero, no
      fragments. */
  function Initial(): (p: ExpertProfile)
    ensures forall t: Trait :: p.bigFive.Get(t) == 0
    ensures forall v: Value :: p.valores.Get(v) == 0
    ensures forall d: Domain :: p.cobertura.Get(d) == 0
    ensures p.metricas == Metrics(0, 0, 0)
    ensures p.fragmentos == []
    ensures WellFormed(p)
  {
    ExpertProfile(BigFive(0, 0, 0, 0, 0), Schwartz(0, 0, 0, 0, 0, 0, 0, 0, 0, 0),
                  Coverage(0, 0, 0, 0, 0), Metrics(0, 0, 0), [])
  }

  /** The profile invariant: scores stay within 0..100, and one domain
      counter was bumped per stored fragment. */
  predicate WellFormed(p: ExpertProfile) {
    (forall t: Trait :: p.bigFive.Get(t) <= 100) &&
    (forall v: Value :: p.valores.Get(v) <= 100) &&
    p.cobertura.Total() == |p.fragmentos|
  }

  /** Every score of `q` is at least the corresponding score of `p`. */
  predicate ScoresAtLeast(q: ExpertProfile, p: ExpertProfile) {
    (forall t: Trait :: q.bigFive.Get(t) >= p.bigFive.Get(t)) &&
    (forall v: Value :: q.valores.Get(v) >= p.valores.Get(v))
  }

  /** The name-keyed trait record, in declaration order. */
  function TraitEntries(b: BigFive): (e: seq<(string, nat)>)
    ensures |e| == |TraitOrder|
    ensures forall i :: 0 <= i < |e| ==> e[i] == (TraitName(TraitOrder[i]), b.Get(TraitOrder[i]))
  {
    seq(|TraitOrder|, i requires 0 <= i < |TraitOrder| => (TraitName(TraitOrder[i]), b.Get(TraitOrder[i])))
  }

  /** The name-keyed value record, in declaration order. */
  function ValueEntries(v: Schwartz): (e: seq<(string, nat)>)
    ensures |e| == |ValueOrder|
    ensures forall i :: 0 <= i < |e| ==> e[i] == (ValueName(ValueOrder[i]), v.Get(ValueOrder[i]))
  {
    seq(|ValueOrder|, i requires 0 <= i < |ValueOrder| => (ValueName(ValueOrder[i]), v.Get(ValueOrder[i])))
  }

  /** The declaration orders list every key exactly once. */
  lemma OrdersComplete()
    ensures forall t: Trait :: t in TraitOrder
    ensures forall v: Value :: v in ValueOrder
    ensures forall i, j :: 0 <= i < j < |TraitOrder| ==> TraitOrder[i] != TraitOrder[j]
    ensures forall i, j :: 0 <= i < j < |ValueOrder| ==> ValueOrder[i] != ValueOrder[j]
  {
    forall t: Trait ensures t in TraitOrder {
      match t
      case Abertura => assert TraitOrder[0] == t;
      case Conscienciosidade => assert TraitOrder[1] == t;
      case Extroversao => assert TraitOrder[2] == t;
      case Amabilidade => assert TraitOrder[3] == t;
      case Neuroticismo => assert TraitOrder[4] == t;
    }
    forall v: Value ensures v in ValueOrder {
      match v
      case Universalismo => assert ValueOrder[0] == v;
      case Benevolencia => assert ValueOrder[1] == v;
      case Tradicao => assert ValueOrder[2] == v;
      case Conformidade => assert ValueOrder[3] == v;
      case Seguranca => assert ValueOrder[4] == v;
      case Poder => assert ValueOrder[5] == v;
      case Realizacao => assert ValueOrder[6] == v;
      case Hedonismo => assert ValueOrder[7] == v;
      case Estimulacao => assert ValueOrder[8] == v;
      case Autodeterminacao => assert ValueOrder[9] == v;
    }
  }
}
