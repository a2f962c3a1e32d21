/**
 * The administration panel: the seeded store created by the "new store"
 * button, the editing draft (a copy of a store, edited field by field and
 * saved back through the directory), and the editor's per-KPI figure.
 */
module Admin {
  import opened Model
  import Scoring
  import Decimal
  import App

  const CodePrefix: string := "LOJA-"

  /** Reward table seeded into every new store. */
  const DefaultRewards: map<Tier, real> :=
    map[NoTier := 0.0, Bronze := 500.0, Silver := 1000.0, Gold := 2500.0, Elite := 5000.0]

  /** Colour table seeded into every new store. */
  const DefaultColors: map<Tier, string> :=
    map[NoTier := "#94a3b8", Bronze := "#cd7f32", Silver := "#c0c0c0", Gold := "#ffd700", Elite := "#00ffff"]

  lemma DefaultTablesTotal()
    ensures forall t: Tier :: t in DefaultRewards && t in DefaultColors
  {
    forall t: Tier ensures t in DefaultRewards && t in DefaultColors {
      match t
      case NoTier =>
      case Bronze =>
      case Silver =>
      case Gold =>
      case Elite =>
    }
  }

  /** The store the "new store" button creates when the directory holds
      `count` stores; ids and the timestamp come from the caller. */
  function NewStore(count: nat, storeId: string, kpiIds: seq<string>, now: string): (s: Store)
    requires |kpiIds| == 3
    ensures s.id == storeId && s.lastUpdate == now
    ensures s.code == CodePrefix + Decimal.NatToString(count + 1)
    ensures |s.code| > |CodePrefix| && s.code[..|CodePrefix|] == CodePrefix
    ensures Decimal.IsDigits(s.code[|CodePrefix|..]) && Decimal.ParseNat(s.code[|CodePrefix|..]) == count + 1
    ensures |s.kpis| == 3
    ensures forall i :: 0 <= i < 3 ==>
      s.kpis[i].id == kpiIds[i] && s.kpis[i].actual == 0.0 && s.kpis[i].weight == 1.0
    ensures s.kpis[0].target == 100000.0 && s.kpis[1].target == 5.0 && s.kpis[2].target == 30.0
    ensures s.customRewards == DefaultRewards && s.tierColors == DefaultColors
    ensures forall t: Tier :: t in s.customRewards && t in s.tierColors
    ensures forall t: Tier :: s.customRewards[t] >= 0.0
    ensures forall t: Tier, u: Tier :: Rank(t) <= Rank(u) ==> s.customRewards[t] <= s.customRewards[u]
  {
    var digits := Decimal.NatToString(count + 1);
    Decimal.ParseNatToString(count + 1);
    var code := CodePrefix + digits;
    assert code[..|CodePrefix|] == CodePrefix && code[|CodePrefix|..] == digits;
    DefaultTablesTotal();
    Store(
      storeId, code, "Nova Razão Social", "Nova Loja", "Novo Gerente", now,
      [ Kpi(kpiIds[0], "Meta do Trimestre", "", Finance, 100000.0, 0.0, "R$", 1.0),
        Kpi(kpiIds[1], "Crescimento vs Ano Anterior", "", Growth, 5.0, 0.0, "%", 1.0),
        Kpi(kpiIds[2], "Participação no PDV", "", Market, 30.0, 0.0, "%", 1.0) ],
      DefaultRewards, DefaultColors)
  }

  /** Stores created at different directory sizes get different codes. */
  lemma NewStoreCodesDistinct(n: nat, m: nat, id1: string, id2: string, k1: seq<string>, k2: seq<string>, t1: string, t2: string)
    requires n != m && |k1| == 3 && |k2| == 3
    ensures NewStore(n, id1, k1, t1).code != NewStore(m, id2, k2, t2).code
  {
  }

  /** A new store is scorable, scores 0, earns no tier, is shown with the
      NONE colour and a reward of 0, so no reward banner appears. */
  lemma NewStoreScoresNothing(count: nat, storeId: string, kpiIds: seq<string>, now: string)
    requires |kpiIds| == 3
    ensures var s := NewStore(count, storeId, kpiIds, now);
      && Scoring.Scorable(s.kpis)
      && Scoring.TotalPerformance(s.kpis) == 0
      && Scoring.Summarize(s) == Scoring.Summary(0, NoTier, Some("#94a3b8"), Some(0.0))
      && !Scoring.ShowsRewardBanner(Scoring.Summarize(s).reward)
  {
    var s := NewStore(count, storeId, kpiIds, now);
    Scoring.NothingAchievedScoresZero(s.kpis);
  }

  /** A new store whose every KPI is then met exactly reaches ELITE and the
      seeded ELITE reward of 5000. */
  lemma NewStoreOnTargetEarnsElite(count: nat, storeId: string, kpiIds: seq<string>, now: string)
    requires |kpiIds| == 3
    ensures var s := NewStore(count, storeId, kpiIds, now);
      var met := s.(kpis := seq(3, i requires 0 <= i < 3 => s.kpis[i].(actual := s.kpis[i].target)));
      && Scoring.Scorable(met.kpis)
      && Scoring.Summarize(met) == Scoring.Summary(100, Elite, Some("#00ffff"), Some(5000.0))
  {
    var s := NewStore(count, storeId, kpiIds, now);
    var met := s.(kpis := seq(3, i requires 0 <= i < 3 => s.kpis[i].(actual := s.kpis[i].target)));
    Scoring.AllOnTargetScoresHundred(met.kpis);
  }

  // ---------------------------------------------------------------------
  // Draft editing

  /** One editor change of a KPI: a key and its new value. */
  datatype KpiEdit =
    | SetId(id: string)
    | SetName(name: string)
    | SetDescription(description: string)
    | SetCategory(category: Category)
    | SetTarget(target: real)
    | SetActual(actual: real)
    | SetUnit(unit: string)
    | SetWeight(weight: real)

  function EditedField(e: KpiEdit): KpiField
  {
    match e
    case SetId(_) => Id
    case SetName(_) => Name
    case SetDescription(_) => Description
    case SetCategory(_) => CategoryField
    case SetTarget(_) => Target
    case SetActual(_) => Actual
    case SetUnit(_) => Unit
    case SetWeight(_) => Weight
  }

  function EditedValue(e: KpiEdit): FieldValue
  {
    match e
    case SetId(v) => Text(v)
    case SetName(v) => Text(v)
    case SetDescription(v) => Text(v)
    case SetCategory(v) => CategoryValue(v)
    case SetTarget(v) => Number(v)
    case SetActual(v) => Number(v)
    case SetUnit(v) => Text(v)
    case SetWeight(v) => Number(v)
  }

  /** A copy of the KPI with one key overwritten. */
  function ApplyEdit(k: Kpi, e: KpiEdit): (r: Kpi)
    ensures Get(r, EditedField(e)) == EditedValue(e)
    ensures forall f: KpiField :: f != EditedField(e) ==> Get(r, f) == Get(k, f)
  {
    match e
    case SetId(v) => k.(id := v)
    case SetName(v) => k.(name := v)
    case SetDescription(v) => k.(description := v)
    case SetCategory(v) => k.(category := v)
    case SetTarget(v) => k.(target := v)
    case SetActual(v) => k.(actual := v)
    case SetUnit(v) => k.(unit := v)
    case SetWeight(v) => k.(weight := v)
  }

  /** The KPI list with the edit applied to every KPI whose id is `kpiId`. */
  function UpdateKpis(kpis: seq<Kpi>, kpiId: string, e: KpiEdit): (r: seq<Kpi>)
    ensures |r| == |kpis|
    ensures forall i :: 0 <= i < |kpis| && kpis[i].id == kpiId ==> r[i] == ApplyEdit(kpis[i], e)
    ensures forall i :: 0 <= i < |kpis| && kpis[i].id != kpiId ==> r[i] == kpis[i]
  {
    if kpis == [] then []
    else [if kpis[0].id == kpiId then ApplyEdit(kpis[0], e) else kpis[0]] + UpdateKpis(kpis[1..], kpiId, e)
  }

  /** Only the edited key of the matching KPIs changes: every other key of
      every KPI keeps its value, and an unknown id leaves the list as it was. */
  lemma UpdateKpisTouchesOneField(kpis: seq<Kpi>, kpiId: string, e: KpiEdit)
    ensures forall i, f: KpiField :: 0 <= i < |kpis| && f != EditedField(e) ==>
      Get(UpdateKpis(kpis, kpiId, e)[i], f) == Get(kpis[i], f)
    ensures forall i :: 0 <= i < |kpis| && kpis[i].id == kpiId ==>
      Get(UpdateKpis(kpis, kpiId, e)[i], EditedField(e)) == EditedValue(e)
    ensures (forall i :: 0 <= i < |kpis| ==> kpis[i].id != kpiId) ==> UpdateKpis(kpis, kpiId, e) == kpis
  {
  }

  /** Writing back the value every matching KPI already holds under the
      edited key leaves the list as it was. */
  lemma RewritingHeldValueIsNoop(kpis: seq<Kpi>, kpiId: string, e: KpiEdit)
    requires forall i :: 0 <= i < |kpis| && kpis[i].id == kpiId ==>
      Get(kpis[i], EditedField(e)) == EditedValue(e)
    ensures UpdateKpis(kpis, kpiId, e) == kpis
  {
  }

  /** Edits of names, descriptions, categories, units or weights never move the score. */
  lemma CosmeticEditKeepsPerformance(kpis: seq<Kpi>, kpiId: string, e: KpiEdit)
    requires Scoring.Scorable(kpis)
    requires !e.SetTarget? && !e.SetActual?
    ensures Scoring.Scorable(UpdateKpis(kpis, kpiId, e))
    ensures Scoring.TotalPerformance(UpdateKpis(kpis, kpiId, e)) == Scoring.TotalPerformance(kpis)
  {
    var r := UpdateKpis(kpis, kpiId, e);
    forall i | 0 <= i < |kpis| ensures kpis[i].target == r[i].target && kpis[i].actual == r[i].actual {
      assert Get(r[i], Target) == Get(kpis[i], Target);
      assert Get(r[i], Actual) == Get(kpis[i], Actual);
    }
    Scoring.PerformanceIgnoresMetadata(kpis, r);
  }

  /** One editor change of a store's own details. */
  datatype DetailEdit =
    | SetFantasia(fantasia: string)
    | SetManager(manager: string)
    | SetCode(code: string)
    | SetRazaoSocial(razaoSocial: string)

  /** A copy of the store with one detail overwritten; KPIs, tables, id and
      timestamp are untouched, so the score is too. */
  function ApplyDetail(s: Store, e: DetailEdit): (r: Store)
    ensures r.id == s.id && r.lastUpdate == s.lastUpdate && r.kpis == s.kpis
    ensures r.customRewards == s.customRewards && r.tierColors == s.tierColors
    ensures r.fantasia == (if e.SetFantasia? then e.fantasia else s.fantasia)
    ensures r.manager == (if e.SetManager? then e.manager else s.manager)
    ensures r.code == (if e.SetCode? then e.code else s.code)
    ensures r.razaoSocial == (if e.SetRazaoSocial? then e.razaoSocial else s.razaoSocial)
    ensures Scoring.Scorable(s.kpis) ==> Scoring.Summarize(r) == Scoring.Summarize(s)
  {
    match e
    case SetFantasia(v) => s.(fantasia := v)
    case SetManager(v) => s.(manager := v)
    case SetCode(v) => s.(code := v)
    case SetRazaoSocial(v) => s.(razaoSocial := v)
  }

  /** The editor's per-KPI figure: the rounded completion percentage, not capped. */
  function EditorPercent(k: Kpi): (r: int)
    requires k.target != 0.0
    ensures Scoring.Ratio(k) * 100.0 - 0.5 < r as real <= Scoring.Ratio(k) * 100.0 + 0.5
    ensures Scoring.DisplayPercent(k) == if r < 100 then r else 100
  {
    Scoring.Round(Scoring.Ratio(k) * 100.0)
  }

  /** The editor marks a KPI green exactly when it has reached its target. */
  predicate EditorOnTarget(k: Kpi)
    requires k.target != 0.0
  {
    Scoring.Ratio(k) * 100.0 >= 100.0
  }

  /** A green KPI fills its dashboard bar; a full bar can still be short of
      target, e.g. 199 of 200 rounds to 100 but is not green. */
  lemma EditorGreenVersusDashboard(k: Kpi)
    requires k.target != 0.0
    ensures EditorOnTarget(k) <==> k.actual / k.target >= 1.0
    ensures EditorOnTarget(k) ==> Scoring.DisplayPercent(k) == 100 && EditorPercent(k) >= 100
    ensures var near := k.(actual := 199.0, target := 200.0);
      Scoring.DisplayPercent(near) == 100 && !EditorOnTarget(near)
  {
  }

  class AdminPanel {
    /** The shell whose directory the panel shows and updates. */
    const app: App.AppState
    var isEditing: bool
    var editedStore: Option<Store>

    constructor (app: App.AppState)
      ensures this.app == app && !isEditing && editedStore == None
    {
      this.app := app;
      isEditing := false;
      editedStore := None;
    }

    /** Opens the editor on a copy of `store`; the directory is not touched,
        and later edits of the draft never reach it until saved. */
    method HandleEditClick(store: Store)
      modifies this`editedStore, this`isEditing
      ensures editedStore == Some(store) && isEditing
    {
      editedStore := Some(store);
      isEditing := true;
    }

    /** Creates the seeded store, asks the directory to add it, and opens it
        in the editor whether or not the add was saved. */
    method HandleAddNewStore(storeId: string, kpiIds: seq<string>, now: string, saved: bool)
      requires |kpiIds| == 3
      modifies this`editedStore, this`isEditing, app`stores
      ensures var s := NewStore(|old(app.stores)|, storeId, kpiIds, now);
        && app.stores == (if saved then old(app.stores) + [s] else old(app.stores))
        && editedStore == Some(s) && isEditing
    {
      var newStore := NewStore(|app.stores|, storeId, kpiIds, now);
      app.AddStore(newStore, saved);
      HandleEditClick(newStore);
    }

    /** Without a draft nothing happens. Otherwise the draft, stamped with
        `now`, replaces the directory entry with its id (if the save
        succeeded), and the editor is closed and the draft dropped either way. */
    method SaveChanges(now: string, saved: bool)
      modifies this`editedStore, this`isEditing, app`stores
      ensures old(editedStore) == None ==>
        app.stores == old(app.stores) && editedStore == None && isEditing == old(isEditing)
      ensures old(editedStore) != None ==>
        var stamped := old(editedStore).value.(lastUpdate := now);
        && app.stores == (if saved then App.ReplaceById(old(app.stores), stamped) else old(app.stores))
        && editedStore == None && !isEditing
    {
      if editedStore != None {
        app.UpdateStore(editedStore.value.(lastUpdate := now), saved);
        isEditing := false;
        editedStore := None;
      }
    }

    /** Applies one KPI edit to the draft; without a draft nothing happens. */
    method UpdateKpi(kpiId: string, e: KpiEdit)
      modifies this`editedStore
      ensures old(editedStore) == None ==> editedStore == None
      ensures old(editedStore) != None ==>
        editedStore == Some(old(editedStore).value.(kpis := UpdateKpis(old(editedStore).value.kpis, kpiId, e)))
    {
      if editedStore == None {
        return;
      }
      var draft := editedStore.value;
      editedStore := Some(draft.(kpis := UpdateKpis(draft.kpis, kpiId, e)));
    }

    /** Applies one detail edit to the draft; without a draft nothing happens. */
    method EditDetail(e: DetailEdit)
      modifies this`editedStore
      ensures old(editedStore) == None ==> editedStore == None
      ensures old(editedStore) != None ==> editedStore == Some(ApplyDetail(old(editedStore).value, e))
    {
      if editedStore != None {
        editedStore := Some(ApplyDetail(editedStore.value, e));
      }
    }

    /** The back button closes the editor and keeps the draft. */
    method CloseEditor()
      modifies this`isEditing
      ensures !isEditing
    {
      isEditing := false;
    }
  }
}
