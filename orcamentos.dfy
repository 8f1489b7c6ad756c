/** Quotes (modules/orcamentos.js): the item table, the totals, the quote
    numbers, the save and delete of the quote list, tab navigation and the
    payment-method labels. */
module Orcamentos {
  import opened Wrappers
  import opened Text
  import opened Numbers
  import Records

  // ---------------------------------------------------------------- items

  /** One row of the item table: its description and the `parseFloat`
      readings of quantity and unit price (`None` when unparsable). */
  datatype ItemRow = ItemRow(descricao: string, quantidade: Option<real>, valorUnitario: Option<real>)

  datatype Item = Item(descricao: string, quantidade: real, valorUnitario: real, total: real)

  /** The row's read-only total field: `(qtd * valor).toFixed(2)`, read back
      by `parseFloat`; within half a cent of quantity times unit price. */
  function RowTotal(row: ItemRow): (t: real)
    ensures var exact := OrZero(row.quantidade) * OrZero(row.valorUnitario);
      -0.005 <= t - exact <= 0.005
  {
    var exact := OrZero(row.quantidade) * OrZero(row.valorUnitario);
    Round2Close(exact);
    Round2(exact)
  }

  /** The acceptance test of `saveOrcamento`: a description, a positive
      quantity and a positive unit price. */
  predicate Accepted(row: ItemRow) {
    row.descricao != "" && OrZero(row.quantidade) > 0.0 && OrZero(row.valorUnitario) > 0.0
  }

  function ToItem(row: ItemRow): Item {
    Item(row.descricao, OrZero(row.quantidade), OrZero(row.valorUnitario), RowTotal(row))
  }

  /** The items a save keeps, in table order. */
  function AcceptedItems(rows: seq<ItemRow>): (r: seq<Item>)
    ensures |r| <= |rows|
    ensures forall i | 0 <= i < |r| ::
      r[i].descricao != "" && r[i].quantidade > 0.0 && r[i].valorUnitario > 0.0
  {
    if rows == [] then []
    else
      var last := rows[|rows| - 1];
      AcceptedItems(rows[..|rows| - 1]) + (if Accepted(last) then [ToItem(last)] else [])
  }

  /** The `forEach` over the rows that pushes each accepted item. */
  method CollectItens(rows: seq<ItemRow>) returns (itens: seq<Item>)
    ensures itens == AcceptedItems(rows)
  {
    itens := [];
    for i := 0 to |rows|
      invariant itens == AcceptedItems(rows[..i])
    {
      assert rows[..i + 1][..i] == rows[..i];
      var row := rows[i];
      if row.descricao != "" && OrZero(row.quantidade) > 0.0 && OrZero(row.valorUnitario) > 0.0 {
        itens := itens + [ToItem(row)];
      }
    }
    assert rows[..|rows|] == rows;
  }

  /** No item is kept exactly when no row passes the test. */
  lemma {:induction false} AcceptedItemsEmpty(rows: seq<ItemRow>)
    ensures AcceptedItems(rows) == [] <==> forall i | 0 <= i < |rows| :: !Accepted(rows[i])
  {
    if rows != [] {
      var init := rows[..|rows| - 1];
      AcceptedItemsEmpty(init);
      assert forall i | 0 <= i < |init| :: init[i] == rows[i];
    }
  }

  /** Every accepted row is kept, as its item. */
  lemma {:induction false} AcceptedRowIsKept(rows: seq<ItemRow>, i: nat)
    requires i < |rows| && Accepted(rows[i])
    ensures ToItem(rows[i]) in AcceptedItems(rows)
  {
    var init := rows[..|rows| - 1];
    if i < |rows| - 1 {
      assert init[i] == rows[i];
      AcceptedRowIsKept(init, i);
    }
  }

  // ---------------------------------------------------------------- totals

  /** Σ of every row's total field, whether or not the row will be kept. */
  function SumRowTotals(rows: seq<ItemRow>): real {
    if rows == [] then 0.0 else SumRowTotals(rows[..|rows| - 1]) + RowTotal(rows[|rows| - 1])
  }

  function SumItemTotals(itens: seq<Item>): real {
    if itens == [] then 0.0 else SumItemTotals(itens[..|itens| - 1]) + itens[|itens| - 1].total
  }

  /** The rows a save drops. */
  function RejectedRows(rows: seq<ItemRow>): seq<ItemRow> {
    if rows == [] then []
    else
      var last := rows[|rows| - 1];
      RejectedRows(rows[..|rows| - 1]) + (if Accepted(last) then [] else [last])
  }

  lemma SumItemTotalsAppend(itens: seq<Item>, extra: seq<Item>)
    requires |extra| <= 1
    ensures SumItemTotals(itens + extra) == SumItemTotals(itens) + SumItemTotals(extra)
  {
    if extra != [] {
      assert (itens + extra)[..|itens + extra| - 1] == itens;
    } else {
      assert itens + extra == itens;
    }
  }

  lemma SumRowTotalsAppend(rows: seq<ItemRow>, extra: seq<ItemRow>)
    requires |extra| <= 1
    ensures SumRowTotals(rows + extra) == SumRowTotals(rows) + SumRowTotals(extra)
  {
    if extra != [] {
      assert (rows + extra)[..|rows + extra| - 1] == rows;
    } else {
      assert rows + extra == rows;
    }
  }

  /** The displayed subtotal counts the kept items and also the dropped rows. */
  lemma {:induction false} SubtotalSplitsByAcceptance(rows: seq<ItemRow>)
    ensures SumRowTotals(rows) == SumItemTotals(AcceptedItems(rows)) + SumRowTotals(RejectedRows(rows))
  {
    if rows != [] {
      var init, last := rows[..|rows| - 1], rows[|rows| - 1];
      SubtotalSplitsByAcceptance(init);
      if Accepted(last) {
        assert AcceptedItems(rows) == AcceptedItems(init) + [ToItem(last)];
        assert RejectedRows(rows) == RejectedRows(init);
        SumItemTotalsAppend(AcceptedItems(init), [ToItem(last)]);
        assert SumItemTotals([ToItem(last)]) == RowTotal(last) by {
          assert [ToItem(last)][..0] == [];
        }
      } else {
        assert AcceptedItems(rows) == AcceptedItems(init) + [];
        assert AcceptedItems(init) + [] == AcceptedItems(init);
        assert RejectedRows(rows) == RejectedRows(init) + [last];
        SumRowTotalsAppend(RejectedRows(init), [last]);
        assert SumRowTotals([last]) == RowTotal(last) by {
          assert [last][..0] == [];
        }
      }
    }
  }

  /** With every row accepted, the subtotal is the sum of the item totals. */
  lemma SubtotalOfAcceptedRows(rows: seq<ItemRow>)
    requires forall i | 0 <= i < |rows| :: Accepted(rows[i])
    ensures SumRowTotals(rows) == SumItemTotals(AcceptedItems(rows))
  {
    SubtotalSplitsByAcceptance(rows);
    NoRejected(rows);
  }

  lemma {:induction false} NoRejected(rows: seq<ItemRow>)
    requires forall i | 0 <= i < |rows| :: Accepted(rows[i])
    ensures RejectedRows(rows) == []
  {
    if rows != [] {
      NoRejected(rows[..|rows| - 1]);
    }
  }

  /** The subtotal less `percent` per cent of it. */
  function QuoteTotal(subtotal: real, percent: real): real {
    subtotal - subtotal * (percent / 100.0)
  }

  /** What `calcularTotal` displays: subtotal, discount amount and total. */
  datatype Totals = Totals(subtotal: real, descontoValor: real, total: real)

  /** The totals on display for these rows and this discount field. */
  function Displayed(rows: seq<ItemRow>, desconto: Option<real>): Totals {
    var subtotal := SumRowTotals(rows);
    var descontoValor := subtotal * (OrZero(desconto) / 100.0);
    Totals(subtotal, descontoValor, subtotal - descontoValor)
  }

  /** `calcularTotal`: the loop over the row totals, then the percentage discount. */
  method CalcularTotal(rows: seq<ItemRow>, desconto: Option<real>) returns (t: Totals)
    ensures t == Displayed(rows, desconto)
    ensures t.subtotal == SumRowTotals(rows)
    ensures t.descontoValor == t.subtotal * (OrZero(desconto) / 100.0)
    ensures t.total == t.subtotal - t.descontoValor == QuoteTotal(t.subtotal, OrZero(desconto))
  {
    var subtotal := 0.0;
    for i := 0 to |rows|
      invariant subtotal == SumRowTotals(rows[..i])
    {
      assert rows[..i + 1][..i] == rows[..i];
      subtotal := subtotal + RowTotal(rows[i]);
    }
    assert rows[..|rows|] == rows;
    var descontoPercent := OrZero(desconto);
    var descontoValor := subtotal * (descontoPercent / 100.0);
    t := Totals(subtotal, descontoValor, subtotal - descontoValor);
  }

  /** A discount between 0 % and 100 % keeps the total between 0 and the subtotal. */
  lemma DiscountWithinSubtotal(subtotal: real, percent: real)
    requires subtotal >= 0.0 && 0.0 <= percent <= 100.0
    ensures 0.0 <= QuoteTotal(subtotal, percent) <= subtotal
  {
    var f := percent / 100.0;
    assert 0.0 <= f <= 1.0;
    assert subtotal * f <= subtotal * 1.0 by {
      assert subtotal * (1.0 - f) >= 0.0;
    }
  }

  // ---------------------------------------------------------------- stored amounts

  /** How lines 289 and 291 turn the displayed text back into a number:
      drop `R$ `, then the first `.`, then turn the first `,` into `.`. */
  function StoredAmountAsWritten(shown: string): Option<real> {
    ParseFloat(ReplaceFirst(ReplaceFirst(ReplaceFirst(shown, "R$ ", ""), ".", ""), ",", "."))
  }

  /** The evident intent: drop the currency prefix and read the amount. */
  function StoredAmount(shown: string): Option<real> {
    ParseFloat(ReplaceFirst(shown, "R$ ", ""))
  }

  /** The corrected reading gives back the displayed amount. */
  lemma StoredAmountIsDisplayed(x: real)
    ensures StoredAmount(MoneyText(x)) == Some(Round2(x))
  {
    ReplaceFirstAtFront("R$ ", ToFixed2(x), "");
    assert "" + ToFixed2(x) == ToFixed2(x);
    ParseToFixed2(x);
  }

  /** Dropping the first `.` of `sign units . cents` leaves `sign units cents`. */
  lemma DropPoint(sign: string, q: string, p: string)
    requires sign == "" || sign == "-"
    requires AllDigits(q)
    ensures ReplaceFirst(sign + (q + ("." + p)), ".", "") == sign + (q + p)
  {
    var a := sign + q;
    forall i | 0 <= i < |a| ensures a[i] != '.' {
      if i >= |sign| {
        assert a[i] == q[i - |sign|];
      }
    }
    assert sign + (q + ("." + p)) == a + ['.'] + p;
    ReplaceFirstCharAfter(a, '.', p, "");
    assert a + "" + p == sign + (q + p);
  }

  /** A sign and digits hold no `,`, so turning the first `,` into `.` changes nothing. */
  lemma NoComma(sign: string, d: string)
    requires sign == "" || sign == "-"
    requires AllDigits(d)
    ensures ReplaceFirst(sign + d, ",", ".") == sign + d
  {
    var t := sign + d;
    forall i | 0 <= i < |t| ensures t[i] != ',' {
      if i >= |sign| {
        assert t[i] == d[i - |sign|];
      }
    }
    ReplaceFirstCharAbsent(t, ',', ".");
  }

  /** Units followed by two cent digits read as a whole number of cents. */
  lemma CentsValue(m: nat)
    ensures var d := NatToDigits(m / 100) + PadStart(NatToDigits(m % 100), 2, '0');
      AllDigits(d) && DigitsToNat(d) == m
  {
    var q, p := NatToDigits(m / 100), PadStart(NatToDigits(m % 100), 2, '0');
    PadTwoDigits(m % 100);
    DigitsToNatConcat(q, p);
    NatToDigitsRoundTrip(m / 100);
    assert Pow10(|p|) == 100;
  }

  /** The three replacements of the as-written reading, on `R$ sign units.cents`. */
  lemma AsWrittenReplacements(sign: string, q: string, p: string)
    requires sign == "" || sign == "-"
    requires AllDigits(q) && AllDigits(p)
    ensures StoredAmountAsWritten("R$ " + (sign + (q + ("." + p)))) == ParseFloat(sign + (q + p))
  {
    var fixed := sign + (q + ("." + p));
    ReplaceFirstAtFront("R$ ", fixed, "");
    assert "" + fixed == fixed;
    DropPoint(sign, q, p);
    NoComma(sign, q + p);
  }

  /** The as-written reading of signed fixed-point text is its count of cents. */
  lemma AsWrittenFixedText(neg: bool, c: int)
    requires neg ==> c <= 0
    requires !neg ==> c >= 0
    ensures StoredAmountAsWritten("R$ " + FixedText(neg, c)) == Some(c as real)
  {
    var m := Magnitude(c);
    var sign := if neg then "-" else "";
    var q, p := NatToDigits(m / 100), PadStart(NatToDigits(m % 100), 2, '0');
    PadTwoDigits(m % 100);
    var shown := "R$ " + FixedText(neg, c);
    assert shown == "R$ " + (sign + (q + ("." + p)));
    AsWrittenReplacements(sign, q, p);
    var digits := sign + (q + p);
    assert StoredAmountAsWritten(shown) == ParseFloat(digits);
    CentsValue(m);
    var v := WholeValue(neg, q + p);
    assert v == c as real;
    ParseWhole(neg, q + p);
  }

  /** `parseFloat` of a sign and digits. */
  lemma ParseWhole(neg: bool, d: string)
    requires AllDigits(d) && d != []
    ensures ParseFloat((if neg then "-" else "") + d) == Some(WholeValue(neg, d))
  {
    LexOfInteger(neg, d);
    LexValueWhole(neg, d, []);
  }

  function WholeValue(neg: bool, d: string): real
    requires AllDigits(d)
  {
    if neg then -(DigitsToNat(d) as real) else DigitsToNat(d) as real
  }

  /** The reading as written yields the number of cents: 100 times the amount. */
  lemma StoredAmountAsWrittenIsCents(x: real)
    ensures StoredAmountAsWritten(MoneyText(x)) == Some(100.0 * Round2(x))
  {
    var c := RoundCents(x);
    RoundCentsSign(x);
    AsWrittenFixedText(x < 0.0, c);
    HundredCents(x);
  }

  /** The displayed text is the rounded cents, and 100 times the rounded amount is those cents. */
  lemma HundredCents(x: real)
    ensures MoneyText(x) == "R$ " + FixedText(x < 0.0, RoundCents(x))
    ensures 100.0 * Round2(x) == RoundCents(x) as real
  {
    var c := RoundCents(x);
    assert Round2(x) == c as real / 100.0;
  }

  /** A displayed subtotal of R$ 12.50 is stored as 1250. */
  lemma StoredAmountAsWrittenExample()
    ensures StoredAmountAsWritten(MoneyText(12.5)) == Some(1250.0)
    ensures StoredAmount(MoneyText(12.5)) == Some(12.5)
  {
    StoredAmountAsWrittenIsCents(12.5);
    StoredAmountIsDisplayed(12.5);
    assert RoundCents(12.5) == 1250;
  }

  // ---------------------------------------------------------------- numbers

  datatype ClienteInfo = ClienteInfo(nome: string, telefone: string, email: string)

  datatype Pagamento = Pagamento(forma: string, prazo: int)

  datatype Orcamento = Orcamento(
    id: string, numero: string, cliente: ClienteInfo, descricao: string,
    itens: seq<Item>, subtotal: Option<real>, desconto: real, total: Option<real>,
    pagamento: Pagamento, observacoes: string, status: string,
    dataCriacao: string, dataAtualizacao: string)

  function OrcamentoId(o: Orcamento): string { o.id }

  /** `generateOrcamentoNumero`: `ORC`, the current year, then the list length
      plus one padded to four digits. */
  function GenerateNumero(orcamentos: seq<Orcamento>, year: nat): string {
    Numbered("ORC", year, |orcamentos| + 1)
  }

  /** `getOrcamentoNumero`: the stored number of the quote with that id, or a fresh one. */
  function GetNumero(orcamentos: seq<Orcamento>, id: string, year: nat): (r: string)
    ensures var i := Records.IndexOf(orcamentos, OrcamentoId, id);
      && (0 <= i ==> r == orcamentos[i].numero)
      && (i < 0 ==> r == GenerateNumero(orcamentos, year))
  {
    var i := Records.IndexOf(orcamentos, OrcamentoId, id);
    if i >= 0 then orcamentos[i].numero else GenerateNumero(orcamentos, year)
  }

  /** Fresh numbers for lists of different lengths differ. */
  lemma GeneratedNumbersDiffer(a: seq<Orcamento>, b: seq<Orcamento>, year: nat)
    requires |a| != |b|
    ensures GenerateNumero(a, year) != GenerateNumero(b, year)
  {
    NumberedInjective("ORC", year, |a| + 1, |b| + 1);
  }

  // ---------------------------------------------------------------- save and delete

  /** The quote form; `id` is `form.dataset.id`, empty for a new quote, and
      `prazo` the `parseInt` reading of the delivery time. */
  datatype OrcamentoForm = OrcamentoForm(
    id: string, cliente: ClienteInfo, descricao: string, rows: seq<ItemRow>,
    desconto: Option<real>, forma: string, prazo: Option<int>,
    observacoes: string, status: string)

  /** The record `saveOrcamento` builds from the collected items, with
      `subtotal` and `total` read back from the display. `current` is the quote
      being edited, `year`, `now` and `nowId` readings of the clock. */
  function BuildWith(form: OrcamentoForm, itens: seq<Item>, subtotal: Option<real>, total: Option<real>,
                     orcamentos: seq<Orcamento>, current: Option<Orcamento>, year: nat, now: string, nowId: string): Orcamento
    requires form.id != "" ==> current.Some?
  {
    var editing := form.id != "";
    Orcamento(
      if editing then form.id else nowId,
      if editing then GetNumero(orcamentos, form.id, year) else GenerateNumero(orcamentos, year),
      form.cliente, form.descricao, itens,
      subtotal, OrZero(form.desconto), total,
      Pagamento(form.forma, IntOr(form.prazo, 7)),
      form.observacoes, form.status,
      if editing then current.value.dataCriacao else now,
      now)
  }

  /** The corrected reading of a displayed amount `x`. */
  function ReadBack(x: real): (r: Option<real>)
    ensures r == Some(Round2(x))
  {
    StoredAmountIsDisplayed(x);
    StoredAmount(MoneyText(x))
  }

  /** The reading of lines 289 and 291 of a displayed amount `x`. */
  function ReadBackAsWritten(x: real): (r: Option<real>)
    ensures r == Some(100.0 * Round2(x))
  {
    StoredAmountAsWrittenIsCents(x);
    StoredAmountAsWritten(MoneyText(x))
  }

  /** The record as the corrected reading builds it: the displayed amounts are stored. */
  function BuildOrcamento(form: OrcamentoForm, itens: seq<Item>, shown: Totals, orcamentos: seq<Orcamento>,
                          current: Option<Orcamento>, year: nat, now: string, nowId: string): (o: Orcamento)
    requires form.id != "" ==> current.Some?
    ensures o.id == (if form.id != "" then form.id else nowId)
    ensures o.itens == itens
    ensures form.id == "" ==> o.numero == GenerateNumero(orcamentos, year) && o.dataCriacao == now
    ensures form.id != "" ==> o.dataCriacao == current.value.dataCriacao
    ensures form.id != "" && Records.HasKey(orcamentos, OrcamentoId, form.id) ==>
              o.numero == orcamentos[Records.IndexOf(orcamentos, OrcamentoId, form.id)].numero
    ensures o.subtotal == Some(Round2(shown.subtotal)) && o.total == Some(Round2(shown.total))
    ensures o.desconto == OrZero(form.desconto)
    ensures o.pagamento.prazo == IntOr(form.prazo, 7) && o.pagamento.prazo != 0
    ensures o.dataAtualizacao == now
  {
    BuildWith(form, itens, ReadBack(shown.subtotal), ReadBack(shown.total), orcamentos, current, year, now, nowId)
  }

  /** The record as lines 289 and 291 build it: the subtotal and total hold
      100 times the displayed amounts. */
  function BuildOrcamentoAsWritten(form: OrcamentoForm, itens: seq<Item>, shown: Totals, orcamentos: seq<Orcamento>,
                                   current: Option<Orcamento>, year: nat, now: string, nowId: string): (o: Orcamento)
    requires form.id != "" ==> current.Some?
    ensures o.subtotal == Some(100.0 * Round2(shown.subtotal)) && o.total == Some(100.0 * Round2(shown.total))
  {
    BuildWith(form, itens, ReadBackAsWritten(shown.subtotal), ReadBackAsWritten(shown.total), orcamentos, current, year, now, nowId)
  }

  /** The record as written is the corrected record with only its subtotal and
      total changed: every other field is the same. */
  lemma AsWrittenDiffersOnlyInAmounts(form: OrcamentoForm, itens: seq<Item>, shown: Totals, orcamentos: seq<Orcamento>,
                                      current: Option<Orcamento>, year: nat, now: string, nowId: string)
    requires form.id != "" ==> current.Some?
    ensures var o := BuildOrcamento(form, itens, shown, orcamentos, current, year, now, nowId);
      var w := BuildOrcamentoAsWritten(form, itens, shown, orcamentos, current, year, now, nowId);
      w == o.(subtotal := w.subtotal, total := w.total)
  {
  }

  /** The quote list of the application state. */
  class OrcamentoStore {
    var orcamentos: seq<Orcamento>

    constructor(initial: seq<Orcamento>)
      ensures orcamentos == initial
    {
      orcamentos := initial;
    }

    /** `saveOrcamento`: without an accepted item nothing is saved; otherwise
        the quote built from the collected items and the displayed totals is
        upserted by id. The corrected reading of the amounts is used. */
    method SaveOrcamento(form: OrcamentoForm, current: Option<Orcamento>, year: nat, now: string, nowId: string)
      returns (saved: bool)
      requires form.id != "" ==> current.Some?
      modifies this
      ensures saved <==> exists i | 0 <= i < |form.rows| :: Accepted(form.rows[i])
      ensures !saved ==> orcamentos == old(orcamentos)
      ensures saved ==>
                orcamentos == Records.Upsert(old(orcamentos), OrcamentoId,
                  BuildOrcamento(form, AcceptedItems(form.rows), Displayed(form.rows, form.desconto),
                                 old(orcamentos), current, year, now, nowId))
    {
      var itens := CollectItens(form.rows);
      AcceptedItemsEmpty(form.rows);
      if |itens| == 0 {
        return false;
      }
      var shown := CalcularTotal(form.rows, form.desconto);
      var orcamento := BuildOrcamento(form, itens, shown, orcamentos, current, year, now, nowId);
      orcamentos := Records.Upsert(orcamentos, OrcamentoId, orcamento);
      return true;
    }

    /** `deleteOrcamento`: after the confirmation, drop every quote with that id. */
    method DeleteOrcamento(id: string, confirmed: bool)
      modifies this
      ensures orcamentos == if confirmed then Records.Remove(old(orcamentos), OrcamentoId, id) else old(orcamentos)
    {
      if confirmed {
        orcamentos := Records.Remove(orcamentos, OrcamentoId, id);
      }
    }
  }

  // ---------------------------------------------------------------- tabs

  /** The quote form's tab strip; `currentTab` is the index of the shown tab
      (`indexOf` gives -1 for a name that is not a tab). */
  class TabStrip {
    const tabs: seq<string>
    var currentTab: int

    ghost predicate Valid()
      reads this
    {
      tabs == ["cliente", "itens", "pagamento"] && -1 <= currentTab < |tabs|
    }

    constructor()
      ensures Valid() && currentTab == 0
    {
      tabs := ["cliente", "itens", "pagamento"];
      currentTab := 0;
    }

    /** `switchTab`: the current index becomes the tab's position. */
    method SwitchTab(name: string)
      requires Valid()
      modifies this
      ensures Valid()
      ensures currentTab == Records.FirstIndex(tabs, (t: string) => t == name)
      ensures 0 <= currentTab ==> tabs[currentTab] == name
    {
      currentTab := Records.FirstIndex(tabs, (t: string) => t == name);
    }

    /** `prevTab`: one step back unless on the first tab. */
    method PrevTab()
      requires Valid()
      modifies this
      ensures Valid()
      ensures old(currentTab) > 0 ==> currentTab == old(currentTab) - 1
      ensures old(currentTab) <= 0 ==> currentTab == old(currentTab)
    {
      if currentTab > 0 {
        SwitchTab(tabs[currentTab - 1]);
      }
    }

    /** `nextTab`: one step forward unless on the last tab. */
    method NextTab()
      requires Valid()
      modifies this
      ensures Valid()
      ensures old(currentTab) < 2 ==> currentTab == old(currentTab) + 1
      ensures old(currentTab) == 2 ==> currentTab == 2
    {
      if currentTab < |tabs| - 1 {
        SwitchTab(tabs[currentTab + 1]);
      }
    }
  }

  // ---------------------------------------------------------------- payment labels

  /** The labels `formatPagamento` knows. */
  const PaymentLabels: map<string, string> := map[
    "dinheiro" := "Dinheiro",
    "pix" := "PIX",
    "cartao_debito" := "Cart\U{E3}o de D\U{E9}bito",
    "cartao_credito" := "Cart\U{E3}o de Cr\U{E9}dito",
    "boleto" := "Boleto",
    "transferencia" := "Transfer\U{EA}ncia"
  ]

  /** `formatPagamento`: the label of a known code; any other code unchanged.
      A code is shown as itself exactly when it is not one of the six. */
  function FormatPagamento(forma: string): (r: string)
    ensures r == forma <==> forma !in PaymentLabels
    ensures forma in PaymentLabels ==> r in PaymentLabels.Values
  {
    if forma in PaymentLabels then PaymentLabels[forma] else forma
  }

  /** Different known codes get different labels. */
  lemma PaymentLabelsDistinct(a: string, b: string)
    requires a in PaymentLabels && b in PaymentLabels && a != b
    ensures FormatPagamento(a) != FormatPagamento(b)
  {
  }

  /** A label is never itself a code, so formatting twice is formatting once. */
  lemma FormatPagamentoIdempotent(forma: string)
    ensures FormatPagamento(FormatPagamento(forma)) == FormatPagamento(forma)
  {
  }
}
