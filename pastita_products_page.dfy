// The Pastita products page: the search over the four product lists, the
// sauce check-boxes of the meat and combo forms, the forms' starting values,
// and the "add new" button that opens the active tab's empty form.
module PastitaProductsPage {
  import opened Common
  import opened JsNumbers

  // ---------------------------------------------------------------------
  // Search
  // ---------------------------------------------------------------------

  /** Whether an item's `nome` contains the term, ignoring case. */
  predicate NameMatches(nome: string, term: string)
  {
    Includes(Lower(nome), Lower(term))
  }

  /** `filterBySearch`: every item for an empty term, else those whose `nome` contains it, in their order. */
  function FilterBySearch<T>(items: seq<T>, nome: T -> string, term: string): (r: seq<T>)
    ensures term == "" ==> r == items
    ensures |r| <= |items|
  {
    if term == "" then items else Filter(items, item => NameMatches(nome(item), term))
  }

  /** An item is shown exactly when it is in the list and, for a non-empty term, its name matches. */
  lemma SearchShows<T>(items: seq<T>, nome: T -> string, term: string, x: T)
    ensures x in FilterBySearch(items, nome, term) <==> x in items && (term == "" || NameMatches(nome(x), term))
  {
    if term != "" {
      FilterMembership(items, item => NameMatches(nome(item), term), x);
    }
  }

  /** The shown items keep the list's order: two shown items appear in the list in the same order. */
  lemma SearchKeepsOrder<T>(items: seq<T>, nome: T -> string, term: string, i: nat, j: nat) returns (a: nat, b: nat)
    requires i < j < |FilterBySearch(items, nome, term)|
    ensures a < b < |items|
    ensures items[a] == FilterBySearch(items, nome, term)[i] && items[b] == FilterBySearch(items, nome, term)[j]
  {
    if term == "" {
      a, b := i, j;
    } else {
      a, b := FilterPreservesOrder(items, item => NameMatches(nome(item), term), i, j);
    }
  }

  /** The search ignores case in the term: upper and lower case find the same items. */
  lemma SearchIgnoresTermCase<T>(items: seq<T>, nome: T -> string, term: string)
    requires term != ""
    ensures FilterBySearch(items, nome, term) == FilterBySearch(items, nome, Lower(term))
  {
    LowerIdempotent(term);
    assert forall item :: NameMatches(nome(item), term) == NameMatches(nome(item), Lower(term));
    FilterSame(items, item => NameMatches(nome(item), term), item => NameMatches(nome(item), Lower(term)));
  }

  lemma {:induction false} FilterSame<T>(s: seq<T>, p: T -> bool, q: T -> bool)
    requires forall x :: p(x) == q(x)
    ensures Filter(s, p) == Filter(s, q)
    decreases |s|
  {
    if s != [] {
      FilterSame(s[1..], p, q);
    }
  }

  // ---------------------------------------------------------------------
  // Sauce check-boxes
  // ---------------------------------------------------------------------

  /** A sauce check-box: ticking appends the id, unticking keeps every other id. */
  function ToggleId<T(==)>(ids: seq<T>, id: T, checked: bool): (r: seq<T>)
    ensures checked ==> r == ids + [id]
    ensures !checked ==> id !in r && |r| <= |ids|
  {
    if checked then ids + [id]
    else
      FilterMembership(ids, x => x != id, id);
      Filter(ids, x => x != id)
  }

  /** Unticking keeps exactly the other ids, each as often as before, in their order. */
  lemma UntickKeepsOthers<T>(ids: seq<T>, id: T, x: T)
    requires x != id
    ensures x in ToggleId(ids, id, false) <==> x in ids
    ensures Count(ToggleId(ids, id, false), y => y == x) == Count(ids, y => y == x)
  {
    FilterMembership(ids, y => y != id, x);
    CountOfKept(ids, y => y != id, x);
  }

  /** Filtering with a test that keeps `x` keeps every copy of `x`. */
  lemma {:induction false} CountOfKept<T>(s: seq<T>, keep: T -> bool, x: T)
    requires keep(x)
    ensures Count(Filter(s, keep), y => y == x) == Count(s, y => y == x)
    decreases |s|
  {
    if s != [] {
      CountOfKept(s[1..], keep, x);
      var head := if keep(s[0]) then [s[0]] else [];
      assert Filter(s, keep) == head + Filter(s[1..], keep);
      CountAppend(head, Filter(s[1..], keep), y => y == x);
    }
  }

  lemma {:induction false} CountAppend<T>(a: seq<T>, b: seq<T>, p: T -> bool)
    ensures Count(a + b, p) == Count(a, p) + Count(b, p)
    decreases |a|
  {
    if a == [] {
      assert a + b == b;
    } else {
      assert (a + b)[1..] == a[1..] + b;
      CountAppend(a[1..], b, p);
    }
  }

  /** The box shows whether the id is listed; clicking it flips that. */
  lemma ClickFlipsTick<T>(ids: seq<T>, id: T)
    ensures var checked := id !in ids;
      (id in ToggleId(ids, id, checked)) == checked
  {
  }

  /** Ticking a sauce that was not listed and unticking it gives back the list. */
  lemma TickThenUntick<T>(ids: seq<T>, id: T)
    requires id !in ids
    ensures ToggleId(ToggleId(ids, id, true), id, false) == ids
  {
    var keep := (x: T) => x != id;
    FilterAppend(ids, [id], keep);
    FilterKeepsAll(ids, keep);
    assert Filter([id], keep) == [];
  }

  /** The meat form's data. */
  datatype CarneInput = CarneInput(
    nome: string, tipo: string, descricao: string, quantidade: real, preco: real,
    molhosCompativeis: seq<Json>, ativo: bool)

  /** The combo form's data. */
  datatype ComboInput = ComboInput(
    nome: string, descricao: string, preco: real, precoOriginal: real,
    molhosInclusos: seq<Json>, carneInclusa: Option<Json>, rondelliIncluso: Option<Json>,
    quantidadePessoas: Json, ativo: bool, destaque: bool)

  /** The meat form's sauce box: only the compatible sauces change. */
  function ToggleCompatibleSauce(form: CarneInput, id: Json, checked: bool): (r: CarneInput)
    ensures r.molhosCompativeis == ToggleId(form.molhosCompativeis, id, checked)
    ensures r.(molhosCompativeis := form.molhosCompativeis) == form
  {
    form.(molhosCompativeis := ToggleId(form.molhosCompativeis, id, checked))
  }

  /** The combo form's sauce box: the same rule, on the included sauces only. */
  function ToggleIncludedSauce(form: ComboInput, id: Json, checked: bool): (r: ComboInput)
    ensures r.molhosInclusos == ToggleId(form.molhosInclusos, id, checked)
    ensures r.(molhosInclusos := form.molhosInclusos) == form
  {
    form.(molhosInclusos := ToggleId(form.molhosInclusos, id, checked))
  }

  /** The two forms' boxes follow one rule: the same list, clicked the same way, ends the same. */
  lemma SauceBoxesAgree(carne: CarneInput, combo: ComboInput, id: Json, checked: bool)
    requires carne.molhosCompativeis == combo.molhosInclusos
    ensures ToggleCompatibleSauce(carne, id, checked).molhosCompativeis == ToggleIncludedSauce(combo, id, checked).molhosInclusos
  {
  }

  // ---------------------------------------------------------------------
  // Form defaults
  // ---------------------------------------------------------------------

  /** `item?.key`: nothing when there is no item or it lacks the property. */
  function Prop(item: Option<map<string, Json>>, key: string): (r: Option<Json>)
    ensures item.None? ==> r.None?
  {
    if item.Some? && key in item.value then Some(item.value[key]) else None
  }

  /** `item?.key || fallback` for a text property. */
  function TextOr(v: Option<Json>, fallback: string): string
  {
    if v.Some? && v.value.JStr? && v.value.s != "" then v.value.s else fallback
  }

  /** `item?.key ?? fallback` for a flag: only a missing or null flag gives the fallback. */
  function FlagOr(v: Option<Json>, fallback: bool): bool
  {
    if v.Some? && v.value.JBool? then v.value.b else fallback
  }

  /** `item?.molhos?.map(id => id) || []`: a copy of the list, or none. */
  function IdsOf(v: Option<Json>): seq<Json>
  {
    if v.Some? && v.value.JArr? then v.value.items else []
  }

  /** `item?.key || null`. */
  function TruthyOrNull(v: Option<Json>): Option<Json>
  {
    if Truthy(v) then v else None
  }

  datatype MolhoInput = MolhoInput(nome: string, tipo: string, descricao: string, quantidade: real, preco: real, ativo: bool)

  datatype RondelliInput = RondelliInput(
    nome: string, sabor: string, categoria: string, descricao: string, preco: real, isGourmet: bool, ativo: bool)

  /** The sauce form's starting values, from the sauce being edited or none. */
  function MolhoDefaults(molho: Option<map<string, Json>>, numberOfText: string -> Option<real>): MolhoInput
  {
    MolhoInput(
      TextOr(Prop(molho, "nome"), ""), TextOr(Prop(molho, "tipo"), "tradicional"),
      TextOr(Prop(molho, "descricao"), ""), NumberOr(Prop(molho, "quantidade"), 500.0, numberOfText),
      NumberOr(Prop(molho, "preco"), 0.0, numberOfText), FlagOr(Prop(molho, "ativo"), true))
  }

  /** The meat form's starting values. */
  function CarneDefaults(carne: Option<map<string, Json>>, numberOfText: string -> Option<real>): CarneInput
  {
    CarneInput(
      TextOr(Prop(carne, "nome"), ""), TextOr(Prop(carne, "tipo"), "bovina"),
      TextOr(Prop(carne, "descricao"), ""), NumberOr(Prop(carne, "quantidade"), 500.0, numberOfText),
      NumberOr(Prop(carne, "preco"), 0.0, numberOfText), IdsOf(Prop(carne, "molhos")),
      FlagOr(Prop(carne, "ativo"), true))
  }

  /** The rondelli form's starting values. */
  function RondelliDefaults(rondelli: Option<map<string, Json>>, numberOfText: string -> Option<real>): RondelliInput
  {
    RondelliInput(
      TextOr(Prop(rondelli, "nome"), ""), TextOr(Prop(rondelli, "sabor"), ""),
      TextOr(Prop(rondelli, "categoria"), "classico"), TextOr(Prop(rondelli, "descricao"), ""),
      NumberOr(Prop(rondelli, "preco"), 0.0, numberOfText), FlagOr(Prop(rondelli, "is_gourmet"), false),
      FlagOr(Prop(rondelli, "ativo"), true))
  }

  /** The combo form's starting values. */
  function ComboDefaults(combo: Option<map<string, Json>>, numberOfText: string -> Option<real>): ComboInput
  {
    ComboInput(
      TextOr(Prop(combo, "nome"), ""), TextOr(Prop(combo, "descricao"), ""),
      NumberOr(Prop(combo, "preco"), 0.0, numberOfText), NumberOr(Prop(combo, "preco_original"), 0.0, numberOfText),
      IdsOf(Prop(combo, "molhos")), TruthyOrNull(Prop(combo, "carne")), TruthyOrNull(Prop(combo, "rondelli")),
      if Truthy(Prop(combo, "quantidade_pessoas")) then Prop(combo, "quantidade_pessoas").value else JNum(2.0),
      FlagOr(Prop(combo, "ativo"), true), FlagOr(Prop(combo, "destaque"), false))
  }

  /** A new item's forms start from fixed values: active, not featured, 500 g, price zero, two people. */
  lemma NewFormDefaults(numberOfText: string -> Option<real>)
    ensures MolhoDefaults(None, numberOfText) == MolhoInput("", "tradicional", "", 500.0, 0.0, true)
    ensures CarneDefaults(None, numberOfText) == CarneInput("", "bovina", "", 500.0, 0.0, [], true)
    ensures RondelliDefaults(None, numberOfText) == RondelliInput("", "", "classico", "", 0.0, false, true)
    ensures ComboDefaults(None, numberOfText) == ComboInput("", "", 0.0, 0.0, [], None, None, JNum(2.0), true, false)
  {
  }

  /** An edited item keeps its own name, price and flags; an inactive one stays inactive (`??`, not `||`). */
  lemma EditedMolhoKeepsValues(molho: map<string, Json>, nome: string, preco: real, numberOfText: string -> Option<real>)
    requires "nome" in molho && molho["nome"] == JStr(nome) && nome != ""
    requires "preco" in molho && molho["preco"] == JNum(preco) && preco != 0.0
    requires "ativo" in molho && molho["ativo"] == JBool(false)
    ensures MolhoDefaults(Some(molho), numberOfText).nome == nome
    ensures MolhoDefaults(Some(molho), numberOfText).preco == preco
    ensures !MolhoDefaults(Some(molho), numberOfText).ativo
  {
  }

  /** A zero quantity, unlike a false flag, is replaced by the default (`||`, not `??`). */
  lemma ZeroQuantityReplaced(molho: map<string, Json>, numberOfText: string -> Option<real>)
    requires "quantidade" in molho && molho["quantidade"] == JNum(0.0)
    ensures MolhoDefaults(Some(molho), numberOfText).quantidade == 500.0
  {
  }

  /** An edited meat or combo starts with its own sauce list, a copy of it. */
  lemma EditedSaucesKept(item: map<string, Json>, ids: seq<Json>, numberOfText: string -> Option<real>)
    requires "molhos" in item && item["molhos"] == JArr(ids)
    ensures CarneDefaults(Some(item), numberOfText).molhosCompativeis == ids
    ensures ComboDefaults(Some(item), numberOfText).molhosInclusos == ids
  {
  }

  // ---------------------------------------------------------------------
  // Tabs and "add new"
  // ---------------------------------------------------------------------

  datatype ProductType = Molhos | Carnes | Rondellis | Combos

  /** The page's form state: the active tab, and per tab the item being edited and whether its form is open. */
  datatype PageState = PageState(
    activeTab: ProductType,
    searchTerm: string,
    editing: map<ProductType, Option<map<string, Json>>>,
    showForm: map<ProductType, bool>)

  /** The item being edited on a tab (none when unset). */
  function EditingOf(s: PageState, t: ProductType): Option<map<string, Json>>
  {
    if t in s.editing then s.editing[t] else None
  }

  function ShowingOf(s: PageState, t: ProductType): bool
  {
    t in s.showForm && s.showForm[t]
  }

  /** `handleAddNew`: the active tab's form opens empty; nothing else changes. */
  function AddNew(s: PageState): (r: PageState)
    ensures r.activeTab == s.activeTab && r.searchTerm == s.searchTerm
    ensures EditingOf(r, s.activeTab).None? && ShowingOf(r, s.activeTab)
    ensures forall t :: t != s.activeTab ==> EditingOf(r, t) == EditingOf(s, t) && ShowingOf(r, t) == ShowingOf(s, t)
  {
    s.(editing := s.editing[s.activeTab := None], showForm := s.showForm[s.activeTab := true])
  }

  /** Pressing "add new" twice is the same as pressing it once. */
  lemma AddNewIdempotent(s: PageState)
    ensures AddNew(AddNew(s)) == AddNew(s)
  {
    assert s.editing[s.activeTab := None][s.activeTab := None] == s.editing[s.activeTab := None];
    assert s.showForm[s.activeTab := true][s.activeTab := true] == s.showForm[s.activeTab := true];
  }
}
