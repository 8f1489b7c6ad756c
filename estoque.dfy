/** Stock (modules/estoque.js): save and delete of stock items, the category
    list, the low-stock marker and the name ordering of the list. */
module Estoque {
  import opened Wrappers
  import Records
  import Sorting

  /** A stock item. The numeric fields are `parseFloat` readings, `None` for NaN. */
  datatype EstoqueItem = EstoqueItem(
    id: string, nome: string, codigo: string, categoria: string,
    quantidade: Option<real>, estoqueMinimo: Option<real>, preco: Option<real>,
    custo: real, descricao: string, dataAtualizacao: string)

  /** The item form; `id` is the hidden id field, empty for a new item. */
  datatype ItemForm = ItemForm(
    id: string, nome: string, codigo: string, categoria: string,
    quantidade: Option<real>, minimo: Option<real>, preco: Option<real>, custo: Option<real>,
    descricao: string)

  function ItemId(i: EstoqueItem): string { i.id }

  /** The record `saveItem` builds; `nowId` is `Date.now()` as text, `now` the ISO time. */
  function BuildItem(form: ItemForm, now: string, nowId: string): (item: EstoqueItem)
    ensures item.id == (if form.id != "" then form.id else nowId)
    ensures item.custo == (if form.custo.Some? then form.custo.value else 0.0)
    ensures item.quantidade == form.quantidade && item.estoqueMinimo == form.minimo && item.preco == form.preco
    ensures item.nome == form.nome && item.categoria == form.categoria
  {
    EstoqueItem(
      if form.id != "" then form.id else nowId,
      form.nome, form.codigo, form.categoria,
      form.quantidade, form.minimo, form.preco, OrZero(form.custo),
      form.descricao, now)
  }

  /** `quantidade <= estoqueMinimo`, where a comparison with NaN is false. */
  predicate LowStock(item: EstoqueItem) {
    item.quantidade.Some? && item.estoqueMinimo.Some? && item.quantidade.value <= item.estoqueMinimo.value
  }

  /** The stock list of the application state. */
  class EstoqueStore {
    var estoque: seq<EstoqueItem>

    constructor(initial: seq<EstoqueItem>)
      ensures estoque == initial
    {
      estoque := initial;
    }

    /** `saveItem`: replace the item with the same id in place, or append. */
    method SaveItem(form: ItemForm, now: string, nowId: string)
      modifies this
      ensures estoque == Records.Upsert(old(estoque), ItemId, BuildItem(form, now, nowId))
    {
      var item := BuildItem(form, now, nowId);
      var index := Records.IndexOf(estoque, ItemId, item.id);
      if index >= 0 {
        estoque := estoque[index := item];
      } else {
        estoque := estoque + [item];
      }
    }

    /** `deleteItem`: after the confirmation, keep every item with another id. */
    method DeleteItem(id: string, confirmed: bool)
      modifies this
      ensures estoque == if confirmed then Records.Remove(old(estoque), ItemId, id) else old(estoque)
    {
      if confirmed {
        estoque := Records.Remove(estoque, ItemId, id);
      }
    }
  }

  // ---------------------------------------------------------------- categories

  /** `[...new Set(estoque.map(i => i.categoria).filter(Boolean))]`. */
  function Categories(items: seq<EstoqueItem>): (r: seq<string>)
    ensures forall i, j | 0 <= i < j < |r| :: r[i] != r[j]
    ensures forall c :: c in r <==> c != "" && exists k | 0 <= k < |items| :: items[k].categoria == c
  {
    if items == [] then []
    else
      var init := items[..|items| - 1];
      var prev := Categories(init);
      var c := items[|items| - 1].categoria;
      assert forall k | 0 <= k < |init| :: init[k] == items[k];
      if c != "" && c !in prev then prev + [c] else prev
  }

  function Categoria(i: EstoqueItem): string { i.categoria }

  /** The categories come in the order of their first appearance in the list. */
  lemma {:induction false} CategoriesInFirstAppearanceOrder(items: seq<EstoqueItem>)
    ensures var r := Categories(items);
      forall i, j | 0 <= i < j < |r| ::
        Records.IndexOf(items, Categoria, r[i]) < Records.IndexOf(items, Categoria, r[j])
  {
    if items != [] {
      var init := items[..|items| - 1];
      CategoriesInFirstAppearanceOrder(init);
      var prev := Categories(init);
      var r := Categories(items);
      FirstIndexOfPrefix(items, prev);
      var c := items[|items| - 1].categoria;
      if c != "" && c !in prev {
        assert forall k | 0 <= k < |init| :: items[k].categoria != c by {
          forall k | 0 <= k < |init| ensures items[k].categoria != c {
            assert init[k] == items[k];
          }
        }
        Records.IndexOfIs(items, Categoria, c, |items| - 1);
      }
    }
  }

  /** A category already present before the last item has its first index there. */
  lemma FirstIndexOfPrefix(items: seq<EstoqueItem>, prev: seq<string>)
    requires items != [] && prev == Categories(items[..|items| - 1])
    ensures forall x | x in prev ::
      Records.IndexOf(items, Categoria, x) == Records.IndexOf(items[..|items| - 1], Categoria, x) < |items| - 1
  {
    var init := items[..|items| - 1];
    forall x | x in prev
      ensures Records.IndexOf(items, Categoria, x) == Records.IndexOf(init, Categoria, x) < |items| - 1
    {
      var k :| 0 <= k < |init| && init[k].categoria == x;
      var a := FirstCategoria(init, x, k);
      Records.IndexOfIs(init, Categoria, x, a);
      assert items[a] == init[a];
      assert forall j | 0 <= j < a :: items[j] == init[j];
      Records.IndexOfIs(items, Categoria, x, a);
    }
  }

  /** The first position of a category known to occur at or before `k`. */
  lemma FirstCategoria(items: seq<EstoqueItem>, x: string, k: int) returns (a: int)
    requires 0 <= k < |items| && items[k].categoria == x
    ensures 0 <= a <= k && items[a].categoria == x
    ensures forall j | 0 <= j < a :: Categoria(items[j]) != x
  {
    a := k;
    while a > 0 && exists j | 0 <= j < a :: items[j].categoria == x
      invariant 0 <= a <= k && items[a].categoria == x
      decreases a
    {
      var j :| 0 <= j < a && items[j].categoria == x;
      a := j;
    }
  }

  /** Comparing by name through a total preorder on names is a total preorder. */
  lemma ByNomeIsPreorder(collate: (string, string) -> bool)
    requires Sorting.TotalPreorder(collate)
    ensures Sorting.TotalPreorder(ByNome(collate))
  {
    var le := ByNome(collate);
    forall a: EstoqueItem, b: EstoqueItem ensures le(a, b) || le(b, a) {
      assert collate(a.nome, b.nome) || collate(b.nome, a.nome);
    }
    forall a: EstoqueItem, b: EstoqueItem, c: EstoqueItem | le(a, b) && le(b, c) ensures le(a, c) {
      assert collate(a.nome, b.nome) && collate(b.nome, c.nome);
    }
  }

  // ---------------------------------------------------------------- list order

  /** `[...estoque].sort((a, b) => a.nome.localeCompare(b.nome))`; `collate`
      is the locale's "orders at or before" relation on names. */
  function ByNome(collate: (string, string) -> bool): (le: (EstoqueItem, EstoqueItem) -> bool)
  {
    (a: EstoqueItem, b: EstoqueItem) => collate(a.nome, b.nome)
  }

  function RenderOrder(items: seq<EstoqueItem>, collate: (string, string) -> bool): seq<EstoqueItem> {
    Sorting.Sort(items, ByNome(collate))
  }

  /** The rendered list holds the same items, ordered by name. */
  lemma RenderOrderSortedByNome(items: seq<EstoqueItem>, collate: (string, string) -> bool)
    requires Sorting.TotalPreorder(collate)
    ensures var r := RenderOrder(items, collate);
      && multiset(r) == multiset(items)
      && forall i, j | 0 <= i < j < |r| :: collate(r[i].nome, r[j].nome)
  {
    ByNomeIsPreorder(collate);
    Sorting.SortSorted(items, ByNome(collate));
  }

  /** How many items carry the low-stock marker. */
  function CountLow(items: seq<EstoqueItem>): (n: nat)
    ensures n <= |items|
    ensures n == 0 <==> forall k | 0 <= k < |items| :: !LowStock(items[k])
  {
    if items == [] then 0
    else
      var init := items[..|items| - 1];
      assert forall k | 0 <= k < |init| :: init[k] == items[k];
      CountLow(init) + (if LowStock(items[|items| - 1]) then 1 else 0)
  }

  lemma {:induction false} CountLowConcat(a: seq<EstoqueItem>, b: seq<EstoqueItem>)
    ensures CountLow(a + b) == CountLow(a) + CountLow(b)
  {
    if b != [] {
      CountLowConcat(a, b[..|b| - 1]);
      assert (a + b)[..|a + b| - 1] == a + b[..|b| - 1];
    } else {
      assert a + b == a;
    }
  }

  lemma {:induction false} CountLowInsert(x: EstoqueItem, s: seq<EstoqueItem>, le: (EstoqueItem, EstoqueItem) -> bool)
    ensures CountLow(Sorting.Insert(x, s, le)) == CountLow(s) + CountLow([x])
  {
    if s != [] {
      assert s == [s[0]] + s[1..];
      CountLowConcat([s[0]], s[1..]);
      if le(s[0], x) {
        CountLowInsert(x, s[1..], le);
        CountLowConcat([s[0]], Sorting.Insert(x, s[1..], le));
      } else {
        CountLowConcat([x], s);
      }
    }
  }

  /** The rendered (sorted) list shows as many low-stock markers as the stored list has. */
  lemma {:induction false} CountLowSort(items: seq<EstoqueItem>, le: (EstoqueItem, EstoqueItem) -> bool)
    ensures CountLow(Sorting.Sort(items, le)) == CountLow(items)
  {
    if items != [] {
      var init := items[..|items| - 1];
      var x := items[|items| - 1];
      var sorted := Sorting.Sort(init, le);
      assert Sorting.Sort(items, le) == Sorting.Insert(x, sorted, le);
      CountLowSort(init, le);
      CountLowInsert(x, sorted, le);
      assert CountLow(items) == CountLow(init) + CountLow([x]);
    }
  }
}
