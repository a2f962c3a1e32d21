/**
 * The data model shared by the dashboard, the session and store directory,
 * and the administration panel: KPI records, store records and the tier
 * enumeration they are scored against.
 */
module Model {

  datatype Option<+T> = None | Some(value: T)

  /** Excellence tiers, in ascending order. */
  datatype Tier = NoTier | Bronze | Silver | Gold | Elite

  /** Position of a tier in the ascending order NoTier < Bronze < Silver < Gold < Elite. */
  function Rank(t: Tier): (r: nat)
    ensures r <= 4
    ensures t == NoTier <==> r == 0
    ensures t == Elite <==> r == 4
  {
    match t
    case NoTier => 0
    case Bronze => 1
    case Silver => 2
    case Gold => 3
    case Elite => 4
  }

  /** Different tiers have different positions, so the order is total. */
  lemma RankInjective(t: Tier, u: Tier)
    ensures Rank(t) == Rank(u) ==> t == u
    ensures Rank(t) < Rank(u) || t == u || Rank(u) < Rank(t)
  {
  }

  /** KPI categories; used for grouping and display only. The enumeration's
      declaration is not part of this model: the three categories the default
      store uses are named, any other one is carried by its title. */
  datatype Category = Finance | Growth | Market | OtherCategory(title: string)

  /** One measurable target/actual pair with its metadata. */
  datatype Kpi = Kpi(
    id: string,
    name: string,
    description: string,
    category: Category,
    target: real,
    actual: real,
    unit: string,
    weight: real)

  /** A store, its ordered KPIs and its own reward and colour tables. */
  datatype Store = Store(
    id: string,
    code: string,
    razaoSocial: string,
    fantasia: string,
    manager: string,
    lastUpdate: string,
    kpis: seq<Kpi>,
    customRewards: map<Tier, real>,
    tierColors: map<Tier, string>)

  /** The keys of a KPI record. */
  datatype KpiField = Id | Name | Description | CategoryField | Target | Actual | Unit | Weight

  /** A value held by one key of a KPI record. */
  datatype FieldValue = Text(text: string) | Number(number: real) | CategoryValue(category: Category)

  /** Reads one key of a KPI record. */
  function Get(k: Kpi, f: KpiField): FieldValue
  {
    match f
    case Id => Text(k.id)
    case Name => Text(k.name)
    case Description => Text(k.description)
    case CategoryField => CategoryValue(k.category)
    case Target => Number(k.target)
    case Actual => Number(k.actual)
    case Unit => Text(k.unit)
    case Weight => Number(k.weight)
  }
}
