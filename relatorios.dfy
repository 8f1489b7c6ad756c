/** The data side of the reports (modules/relatorios.js): the period filter,
    the report periods, and the sales, stock, client and profit reports, each
    built by a loop over the stored records as the source does. Dates are
    read through `instant`, the parse of `new Date(text)`. */
module Relatorios {
  import opened Wrappers
  import Records
  import Sorting
  import Calendar
  import Estoque
  import Orcamentos
  import Financeiro
  import Numbers

  type Orcamento = Orcamentos.Orcamento
  type EstoqueItem = Estoque.EstoqueItem
  type Conta = Financeiro.Conta

  // ---------------------------------------------------------------- the period filter

  predicate InPeriod<T>(x: T, inicio: int, fim: int, dateOf: T -> int) {
    inicio <= dateOf(x) <= fim
  }

  /** `filtrarPorPeriodo`: without both bounds the list itself, otherwise the
      records dated within [inicio, fim], in their order. `dateOf` reads the
      first present of `dataCriacao`, `data`, `vencimento`, `dataAtualizacao`. */
  function FiltrarPorPeriodo<T>(dados: seq<T>, inicio: Option<int>, fim: Option<int>, dateOf: T -> int): (r: seq<T>)
    ensures inicio.None? || fim.None? ==> r == dados
    ensures inicio.Some? && fim.Some? ==>
      && (forall j | 0 <= j < |r| :: r[j] in dados && inicio.value <= dateOf(r[j]) <= fim.value)
      && (forall j | 0 <= j < |dados| && inicio.value <= dateOf(dados[j]) <= fim.value :: dados[j] in r)
  {
    if inicio.None? || fim.None? then dados
    else Records.Filter(dados, (x: T) => InPeriod(x, inicio.value, fim.value, dateOf))
  }

  /** The filter keeps the order of the records: it distributes over concatenation. */
  lemma FiltrarKeepsOrder<T>(a: seq<T>, b: seq<T>, inicio: Option<int>, fim: Option<int>, dateOf: T -> int)
    ensures FiltrarPorPeriodo(a + b, inicio, fim, dateOf)
         == FiltrarPorPeriodo(a, inicio, fim, dateOf) + FiltrarPorPeriodo(b, inicio, fim, dateOf)
  {
    if inicio.Some? && fim.Some? {
      Records.FilterConcat(a, b, (x: T) => InPeriod(x, inicio.value, fim.value, dateOf));
    }
  }

  /** A period wide enough for every record keeps them all. */
  lemma FiltrarWidePeriod<T>(dados: seq<T>, inicio: int, fim: int, dateOf: T -> int)
    requires forall x | x in dados :: inicio <= dateOf(x) <= fim
    ensures FiltrarPorPeriodo(dados, Some(inicio), Some(fim), dateOf) == dados
  {
    Records.FilterAll(dados, (x: T) => InPeriod(x, inicio, fim, dateOf));
  }

  /** The date a quote is filtered by: `dataCriacao`, else `dataAtualizacao`. */
  function DataOrcamento(instant: string -> int): Orcamento -> int {
    (o: Orcamento) => instant(if o.dataCriacao != "" then o.dataCriacao else o.dataAtualizacao)
  }

  /** The date an account is filtered by: `dataCriacao`, else `vencimento`, else `dataAtualizacao`. */
  function DataConta(instant: string -> int): Conta -> int {
    (c: Conta) =>
      if c.dataCriacao != "" then instant(c.dataCriacao)
      else if c.vencimento.Some? then c.vencimento.value
      else instant(c.dataAtualizacao)
  }

  // ---------------------------------------------------------------- report periods

  datatype Periodo = Hoje | Semana | Mes | Trimestre | Semestre | Ano | Outro

  datatype Bounds = Bounds(inicio: int, fim: int)

  const EndOfDay: int := 23 * 3600000 + 59 * 60000 + 59 * 1000

  /** The whole months `a` .. `b - 1` of year `y`: from midnight of the 1st of
      `a` to 23:59:59 of day 0 of `b`, the last day of the month before it. */
  function Meses(y: int, a: int, b: int): Bounds {
    Bounds(Calendar.LocalTime(y, a, 1, 0, 0, 0, 0), Calendar.LocalTime(y, b, 0, 23, 59, 59, 0))
  }

  /** `obterDatasPorPeriodo` for the clock reading `n`. A week starts on the
      Monday on or before today; the month, quarter and half-year are those
      holding today; an unknown period means the month. */
  function DatasPorPeriodo(periodo: Periodo, n: Calendar.Now): (b: Bounds)
  {
    var y, m := n.year, n.month;
    match periodo
    case Hoje => Dia(n)
    case Semana => SemanaDe(n)
    case Trimestre => Trimestral(n)
    case Semestre => Semestral(n)
    case Ano => Bounds(Calendar.LocalTime(y, 0, 1, 0, 0, 0, 0), Calendar.LocalTime(y, 11, 31, 23, 59, 59, 0))
    case _ => Meses(y, m, m + 1)
  }

  /** The quarter holding today's month. */
  function Trimestral(n: Calendar.Now): Bounds {
    var q := n.month / 3;
    Meses(n.year, q * 3, (q + 1) * 3)
  }

  /** The half-year holding today's month. */
  function Semestral(n: Calendar.Now): Bounds {
    var h := n.month / 6;
    Meses(n.year, h * 6, (h + 1) * 6)
  }

  /** Today, from midnight to 23:59:59. */
  function Dia(n: Calendar.Now): Bounds {
    Bounds(Calendar.LocalTime(n.year, n.month, n.date, 0, 0, 0, 0),
           Calendar.LocalTime(n.year, n.month, n.date, 23, 59, 59, 0))
  }

  /** Seven days from midnight of the Monday on or before today. */
  function SemanaDe(n: Calendar.Now): Bounds {
    var w := Calendar.WeekDay(Calendar.Instant(n));
    var diferenca := if w == 0 then 6 else w - 1;
    var dia := Calendar.MakeDay(n.year, n.month, n.date - diferenca);
    Bounds(dia * Calendar.DayMs, (dia + 6) * Calendar.DayMs + EndOfDay + 999)
  }

  /** The period starts at a midnight no later than now and ends on today or later. */
  predicate Covers(b: Bounds, n: Calendar.Now) {
    && b.inicio <= Calendar.Instant(n)
    && Calendar.Day(Calendar.Instant(n)) <= Calendar.Day(b.fim)
    && b.inicio % Calendar.DayMs == 0
  }

  /** The 1st of an earlier month of the year is a midnight no later than now. */
  lemma MesesStart(n: Calendar.Now, a: int)
    requires Calendar.ValidNow(n) && 0 <= a <= n.month
    ensures var first := Calendar.MakeDay(n.year, a, 1);
      first * Calendar.DayMs <= Calendar.Instant(n) && (first * Calendar.DayMs) % Calendar.DayMs == 0
  {
    var y, m := n.year, n.month;
    var first, today := Calendar.MakeDay(y, a, 1), Calendar.MakeDay(y, m, n.date);
    Calendar.MonthMono(y, a, m);
    Calendar.DateOffset(y, m, n.date);
    assert first <= today;
    Calendar.DayOfDayStart(first, 0);
  }

  /** Day 0 of a later month (the last day of the month before it) is today or later. */
  lemma MesesEnd(n: Calendar.Now, b: int)
    requires Calendar.ValidNow(n) && n.month < b <= 12
    ensures Calendar.Day(Calendar.Instant(n)) <= Calendar.MakeDay(n.year, b, 0)
  {
    var y, m, d := n.year, n.month, n.date;
    var today, next, last := Calendar.MakeDay(y, m, d), Calendar.MakeDay(y, m + 1, 1), Calendar.MakeDay(y, b, 0);
    Calendar.DateOffset(y, m, d);
    Calendar.MonthStep(y, m);
    assert today < next;
    Calendar.MonthMono(y, m + 1, b);
    Calendar.DateOffset(y, b, 0);
    Calendar.DayOfDayStart(today, n.ms);
  }

  /** A period of whole months holding today's month covers today. */
  lemma MesesCover(n: Calendar.Now, a: int, b: int)
    requires Calendar.ValidNow(n) && 0 <= a <= n.month < b <= 12
    ensures Covers(Meses(n.year, a, b), n)
  {
    var last := Calendar.MakeDay(n.year, b, 0);
    MesesStart(n, a);
    MesesEnd(n, b);
    Calendar.DayOfDayStart(last, EndOfDay);
    assert Meses(n.year, a, b) == Bounds(Calendar.MakeDay(n.year, a, 1) * Calendar.DayMs, last * Calendar.DayMs + EndOfDay);
  }

  /** The week starts on the Monday of this week, spans seven whole days and holds now. */
  lemma SemanaCovers(n: Calendar.Now)
    requires Calendar.ValidNow(n)
    ensures var b := DatasPorPeriodo(Semana, n);
      && Covers(b, n)
      && Calendar.WeekDay(b.inicio) == 1
      && b.fim - b.inicio == 7 * Calendar.DayMs - 1
      && Calendar.Instant(n) <= b.fim
  {
    var today := Calendar.MakeDay(n.year, n.month, n.date);
    Calendar.DayOfDayStart(today, n.ms);
    var w := Calendar.WeekDay(Calendar.Instant(n));
    assert w == (today + 4) % 7;
    var diferenca := if w == 0 then 6 else w - 1;
    var dia := Calendar.MakeDay(n.year, n.month, n.date - diferenca);
    Calendar.DateOffset(n.year, n.month, n.date - diferenca);
    Calendar.DateOffset(n.year, n.month, n.date);
    assert dia == today - diferenca;
    Calendar.BackToMonday(today);
    Calendar.DayOfDayStart(dia, 0);
    Calendar.DayOfDayStart(dia + 6, EndOfDay + 999);
    assert DatasPorPeriodo(Semana, n) == Bounds(dia * Calendar.DayMs, (dia + 6) * Calendar.DayMs + EndOfDay + 999);
  }

  lemma HojeCovers(n: Calendar.Now)
    requires Calendar.ValidNow(n)
    ensures Covers(DatasPorPeriodo(Hoje, n), n)
  {
    var today := Calendar.MakeDay(n.year, n.month, n.date);
    Calendar.DayOfDayStart(today, 0);
    Calendar.DayOfDayStart(today, n.ms);
    Calendar.DayOfDayStart(today, EndOfDay);
    assert DatasPorPeriodo(Hoje, n) == Bounds(today * Calendar.DayMs, today * Calendar.DayMs + EndOfDay);
  }

  /** The year runs to 31 December, the day before the next 1 January. */
  lemma AnoCovers(n: Calendar.Now)
    requires Calendar.ValidNow(n)
    ensures Covers(DatasPorPeriodo(Ano, n), n)
  {
    MesesCover(n, 0, 12);
    Calendar.MonthStep(n.year, 11);
    Calendar.DateOffset(n.year, 11, 31);
    Calendar.DateOffset(n.year, 12, 0);
    assert DatasPorPeriodo(Ano, n) == Meses(n.year, 0, 12);
  }

  /** The quarter holding today's month, one quarter at a time. */
  lemma TrimestreCovers(n: Calendar.Now)
    requires Calendar.ValidNow(n)
    ensures Covers(Trimestral(n), n)
  {
    var m := n.month;
    if m < 3 {
      assert m / 3 == 0;
      MesesCover(n, 0, 3);
      assert Trimestral(n) == Meses(n.year, 0, 3);
    } else if m < 6 {
      assert m / 3 == 1;
      MesesCover(n, 3, 6);
      assert Trimestral(n) == Meses(n.year, 3, 6);
    } else if m < 9 {
      assert m / 3 == 2;
      MesesCover(n, 6, 9);
      assert Trimestral(n) == Meses(n.year, 6, 9);
    } else {
      assert m / 3 == 3;
      MesesCover(n, 9, 12);
      assert Trimestral(n) == Meses(n.year, 9, 12);
    }
  }

  /** The half-year holding today's month, one half at a time. */
  lemma SemestreCovers(n: Calendar.Now)
    requires Calendar.ValidNow(n)
    ensures Covers(Semestral(n), n)
  {
    var m := n.month;
    if m < 6 {
      assert m / 6 == 0;
      MesesCover(n, 0, 6);
      assert Semestral(n) == Meses(n.year, 0, 6);
    } else {
      assert m / 6 == 1;
      MesesCover(n, 6, 12);
      assert Semestral(n) == Meses(n.year, 6, 12);
    }
  }

  lemma MesCovers(n: Calendar.Now)
    requires Calendar.ValidNow(n)
    ensures Covers(DatasPorPeriodo(Mes, n), n)
    ensures Covers(DatasPorPeriodo(Outro, n), n)
  {
    MesesCover(n, n.month, n.month + 1);
    assert DatasPorPeriodo(Mes, n) == Meses(n.year, n.month, n.month + 1);
    assert DatasPorPeriodo(Outro, n) == Meses(n.year, n.month, n.month + 1);
  }

  /** Every period holds today: it starts at a midnight no later than now and
      ends on today or a later day. */
  lemma PeriodContainsToday(periodo: Periodo, n: Calendar.Now)
    requires Calendar.ValidNow(n)
    ensures Covers(DatasPorPeriodo(periodo, n), n)
  {
    match periodo {
      case Hoje => HojeCovers(n);
      case Semana => SemanaCovers(n);
      case Trimestre => TrimestreCovers(n);
      case Semestre => SemestreCovers(n);
      case Ano => AnoCovers(n);
      case Mes => MesCovers(n);
      case Outro => MesCovers(n);
    }
  }

  // ---------------------------------------------------------------- object accumulators

  /** One property of an object used as a dictionary; properties keep insertion order. */
  datatype Entry<V> = Entry(key: string, value: V)

  function EntryKey<V>(e: Entry<V>): string { e.key }

  /** `obj[k]` (`None` for `undefined`). */
  function Lookup<V>(g: seq<Entry<V>>, k: string): Option<V>
  {
    var i := Records.IndexOf(g, EntryKey, k);
    if i >= 0 then Some(g[i].value) else None
  }

  /** `obj[k] = add(obj[k], v)`: update the property in place, or add it last. */
  function Bump<V>(g: seq<Entry<V>>, k: string, v: V, add: (Option<V>, V) -> V): (r: seq<Entry<V>>)
    ensures Records.UniqueKeys(g, EntryKey) ==> Records.UniqueKeys(r, EntryKey)
    ensures Lookup(r, k) == Some(add(Lookup(g, k), v))
  {
    var i := Records.IndexOf(g, EntryKey, k);
    if i >= 0 then
      var r := g[i := Entry(k, add(Some(g[i].value), v))];
      Records.IndexOfIs(r, EntryKey, k, i);
      r
    else
      var r := g + [Entry(k, add(None, v))];
      Records.IndexOfIs(r, EntryKey, k, |g|);
      r
  }

  /** Adding to one property leaves the others as they were. */
  lemma BumpOther<V>(g: seq<Entry<V>>, k: string, v: V, add: (Option<V>, V) -> V, other: string)
    requires other != k
    ensures Lookup(Bump(g, k, v, add), other) == Lookup(g, other)
  {
    var r := Bump(g, k, v, add);
    var i := Records.IndexOf(g, EntryKey, other);
    Records.IndexOfFound(g, EntryKey, other);
    if i >= 0 {
      Records.IndexOfIs(r, EntryKey, other, i);
    } else {
      assert forall j | 0 <= j < |r| :: r[j].key != other;
      assert Records.IndexOf(r, EntryKey, other) == -1;
    }
  }

  /** `(obj[k] || 0) + v` for money. */
  function AddMoney(prev: Option<real>, v: real): real { OrZero(prev) + v }

  function EntryValue(e: Entry<real>): real { e.value }

  /** Adding to one property adds to the sum of all properties. */
  lemma BumpSum(g: seq<Entry<real>>, k: string, v: real)
    ensures Records.Sum(Bump(g, k, v, AddMoney), EntryValue) == Records.Sum(g, EntryValue) + v
  {
    var i := Records.IndexOf(g, EntryKey, k);
    if i >= 0 {
      Records.SumUpdate(g, EntryValue, i, Entry(k, AddMoney(Some(g[i].value), v)));
    } else {
      assert (g + [Entry(k, AddMoney(None, v))])[..|g|] == g;
    }
  }

  // ---------------------------------------------------------------- sales report

  /** The stored total of a quote (read as 0 when unparsable). */
  function Valor(o: Orcamento): real { OrZero(o.total) }

  function Forma(o: Orcamento): string { o.pagamento.forma }

  function ClienteNome(o: Orcamento): string { o.cliente.nome }

  /** The running `maiorVenda`, starting at 0. */
  function Maior(os: seq<Orcamento>): real
  {
    if os == [] then 0.0
    else
      var prev, v := Maior(os[..|os| - 1]), Valor(os[|os| - 1]);
      if v > prev then v else prev
  }

  /** `maiorVenda` is the largest sale, or 0 when no sale is positive. */
  lemma {:induction false} MaiorIsMax(os: seq<Orcamento>)
    ensures Maior(os) >= 0.0
    ensures forall j | 0 <= j < |os| :: Valor(os[j]) <= Maior(os)
    ensures Maior(os) == 0.0 || exists j | 0 <= j < |os| :: Valor(os[j]) == Maior(os)
  {
    if os != [] {
      var init := os[..|os| - 1];
      MaiorIsMax(init);
      assert forall j | 0 <= j < |init| :: init[j] == os[j];
    }
  }

  /** The running `menorVenda`, starting at `Infinity` (`None`). */
  function Menor(os: seq<Orcamento>): Option<real>
  {
    if os == [] then None
    else
      var prev, v := Menor(os[..|os| - 1]), Valor(os[|os| - 1]);
      if prev.None? || v < prev.value then Some(v) else prev
  }

  /** `menorVenda` stays `Infinity` exactly when there is no sale, and is
      otherwise the smallest sale. */
  lemma {:induction false} MenorIsMin(os: seq<Orcamento>)
    ensures Menor(os).None? <==> os == []
    ensures Menor(os).Some? ==> forall j | 0 <= j < |os| :: Menor(os).value <= Valor(os[j])
    ensures Menor(os).Some? ==> exists j | 0 <= j < |os| :: Valor(os[j]) == Menor(os).value
  {
    if os != [] {
      var init := os[..|os| - 1];
      MenorIsMin(init);
      assert forall j | 0 <= j < |init| :: init[j] == os[j];
    }
  }

  /** `porFormaPagamento` / `porCliente`: the totals accumulated per key. */
  function GroupBy(os: seq<Orcamento>, key: Orcamento -> string): seq<Entry<real>>
  {
    if os == [] then [] else Bump(GroupBy(os[..|os| - 1], key), key(os[|os| - 1]), Valor(os[|os| - 1]), AddMoney)
  }

  /** The sales whose key is `k`. */
  function WithKey(os: seq<Orcamento>, key: Orcamento -> string, k: string): seq<Orcamento> {
    Records.Filter(os, (o: Orcamento) => key(o) == k)
  }

  /** Each key appears once. */
  lemma {:induction false} GroupByUnique(os: seq<Orcamento>, key: Orcamento -> string)
    ensures Records.UniqueKeys(GroupBy(os, key), EntryKey)
  {
    if os != [] {
      GroupByUnique(os[..|os| - 1], key);
    }
  }

  /** A key is present exactly when some sale has it. */
  lemma {:induction false} GroupByHas(os: seq<Orcamento>, key: Orcamento -> string, k: string)
    ensures Lookup(GroupBy(os, key), k).Some? <==> exists j | 0 <= j < |os| :: key(os[j]) == k
  {
    if os != [] {
      var init, o := os[..|os| - 1], os[|os| - 1];
      GroupByHas(init, key, k);
      assert forall j | 0 <= j < |init| :: init[j] == os[j];
      if key(o) != k {
        BumpOther(GroupBy(init, key), key(o), Valor(o), AddMoney, k);
      }
    }
  }

  /** Splitting off the last sale splits the sales with key `k` the same way. */
  lemma WithKeyLast(os: seq<Orcamento>, key: Orcamento -> string, k: string)
    requires os != []
    ensures var init, o := os[..|os| - 1], os[|os| - 1];
      WithKey(os, key, k) == WithKey(init, key, k) + (if key(o) == k then [o] else [])
  {
    var init, o := os[..|os| - 1], os[|os| - 1];
    var p := (x: Orcamento) => key(x) == k;
    assert os == init + [o];
    Records.FilterConcat(init, [o], p);
    assert Records.Filter([o], p) == if key(o) == k then [o] else [];
  }

  /** A present key holds the total of exactly the sales with that key. */
  lemma {:induction false} GroupByValue(os: seq<Orcamento>, key: Orcamento -> string, k: string)
    requires Lookup(GroupBy(os, key), k).Some?
    ensures Lookup(GroupBy(os, key), k).value == Records.Sum(WithKey(os, key, k), Valor)
  {
    var init, o := os[..|os| - 1], os[|os| - 1];
    var g := GroupBy(init, key);
    WithKeyLast(os, key, k);
    if key(o) == k {
      Records.SumConcat(WithKey(init, key, k), [o], Valor);
      assert Records.Sum([o], Valor) == Valor(o) by {
        assert [o][..0] == [];
      }
      if Lookup(g, k).Some? {
        GroupByValue(init, key, k);
      } else {
        GroupByHas(init, key, k);
        assert Records.Count(init, (x: Orcamento) => key(x) == k) == 0;
      }
    } else {
      BumpOther(g, key(o), Valor(o), AddMoney, k);
      GroupByValue(init, key, k);
      assert WithKey(init, key, k) + [] == WithKey(init, key, k);
    }
  }

  /** The per-key totals add up to the overall total. */
  lemma {:induction false} GroupBySum(os: seq<Orcamento>, key: Orcamento -> string)
    ensures Records.Sum(GroupBy(os, key), EntryValue) == Records.Sum(os, Valor)
  {
    if os != [] {
      var init := os[..|os| - 1];
      GroupBySum(init, key);
      BumpSum(GroupBy(init, key), key(os[|os| - 1]), Valor(os[|os| - 1]));
    }
  }

  datatype ResumoVendas = ResumoVendas(totalVendas: real, quantidadeVendas: nat, mediaVenda: real,
                                       maiorVenda: real, menorVenda: Option<real>)

  datatype Venda = Venda(data: int, numero: string, cliente: string, valor: real,
                         formaPagamento: string, status: string, itens: nat)

  datatype RelatorioVendas = RelatorioVendas(resumo: ResumoVendas, vendas: seq<Venda>,
                                             porFormaPagamento: seq<Entry<real>>, porCliente: seq<Entry<real>>)

  function VendaOf(o: Orcamento, instant: string -> int): Venda {
    Venda(instant(o.dataCriacao), o.numero, o.cliente.nome, Valor(o), o.pagamento.forma, o.status, |o.itens|)
  }

  function VendaData(v: Venda): real { v.data as real }

  /** `mediaVenda`: the mean when there are sales, else 0. */
  function Media(total: real, quantidade: nat): (m: real)
    ensures quantidade > 0 ==> m * (quantidade as real) == total
    ensures quantidade == 0 ==> m == 0.0
  {
    if quantidade > 0 then total / quantidade as real else 0.0
  }

  /** The summary lies between the smallest and the largest sale. */
  lemma MediaBetween(os: seq<Orcamento>)
    requires os != []
    ensures Menor(os).Some?
    ensures var media := Media(Records.Sum(os, Valor), |os|);
      Menor(os).value <= media <= Maior(os)
  {
    MenorIsMin(os);
    MaiorIsMax(os);
    MediaBounded(os, Menor(os).value, Maior(os));
  }

  /** The mean of values within [lo, hi] is within [lo, hi]. */
  lemma MediaBounded(os: seq<Orcamento>, lo: real, hi: real)
    requires os != []
    requires forall j | 0 <= j < |os| :: lo <= Valor(os[j]) <= hi
    ensures lo <= Media(Records.Sum(os, Valor), |os|) <= hi
  {
    SumBetween(os, lo, hi);
    MeanBetween(lo, hi, Records.Sum(os, Valor), |os|);
  }

  lemma MeanBetween(lo: real, hi: real, total: real, n: nat)
    requires n > 0 && lo * (n as real) <= total <= hi * (n as real)
    ensures lo <= Media(total, n) <= hi
  {
    var m, r := total / (n as real), n as real;
    assert m * r == total;
    if m < lo { MulLess(m, lo, r); }
    if hi < m { MulLess(hi, m, r); }
  }

  lemma MulLess(a: real, b: real, n: real)
    requires n > 0.0 && a < b
    ensures a * n < b * n
  {
    assert (b - a) * n > 0.0;
  }

  lemma {:induction false} SumBetween(os: seq<Orcamento>, lo: real, hi: real)
    requires forall j | 0 <= j < |os| :: lo <= Valor(os[j]) <= hi
    ensures lo * (|os| as real) <= Records.Sum(os, Valor) <= hi * (|os| as real)
  {
    if os != [] {
      var init := os[..|os| - 1];
      var n := |init| as real;
      assert forall j | 0 <= j < |init| :: init[j] == os[j];
      SumBetween(init, lo, hi);
      assert lo * (n + 1.0) == lo * n + lo;
      assert hi * (n + 1.0) == hi * n + hi;
    }
  }

  /** The `vendas` rows, one per quote, in the quotes' order. */
  function Vendas(os: seq<Orcamento>, instant: string -> int): seq<Venda>
  {
    if os == [] then [] else Vendas(os[..|os| - 1], instant) + [VendaOf(os[|os| - 1], instant)]
  }

  lemma {:induction false} VendasRows(os: seq<Orcamento>, instant: string -> int)
    ensures |Vendas(os, instant)| == |os|
    ensures forall j | 0 <= j < |os| :: Vendas(os, instant)[j] == VendaOf(os[j], instant)
  {
    if os != [] {
      VendasRows(os[..|os| - 1], instant);
    }
  }

  /** The accumulators of the sales report after the quotes `os`. */
  datatype Acumulado = Acumulado(total: real, quantidade: nat, maior: real, menor: Option<real>,
                                 vendas: seq<Venda>, porForma: seq<Entry<real>>, porCliente: seq<Entry<real>>)

  function AcumuladoDe(os: seq<Orcamento>, instant: string -> int): Acumulado {
    Acumulado(Records.Sum(os, Valor), |os|, Maior(os), Menor(os), Vendas(os, instant),
              GroupBy(os, Forma), GroupBy(os, ClienteNome))
  }

  /** One turn of the `forEach` over the quotes of the period. */
  function Passo(a: Acumulado, o: Orcamento, instant: string -> int): Acumulado {
    var v := Valor(o);
    Acumulado(a.total + v, a.quantidade + 1,
              if v > a.maior then v else a.maior,
              if a.menor.None? || v < a.menor.value then Some(v) else a.menor,
              a.vendas + [VendaOf(o, instant)],
              Bump(a.porForma, Forma(o), v, AddMoney),
              Bump(a.porCliente, ClienteNome(o), v, AddMoney))
  }

  /** Each accumulator of the sales report, one quote further, is one more turn. */
  lemma VendasStep(f: seq<Orcamento>, i: int, instant: string -> int)
    requires 0 <= i < |f|
    ensures AcumuladoDe(f[..i + 1], instant) == Passo(AcumuladoDe(f[..i], instant), f[i], instant)
  {
    var q := f[..i + 1];
    assert q[..|q| - 1] == f[..i];
    assert q[|q| - 1] == f[i];
  }

  /** The accumulators after the turns for the quotes `os`, from their initial values. */
  function Acumular(os: seq<Orcamento>, instant: string -> int): Acumulado {
    if os == [] then Acumulado(0.0, 0, 0.0, None, [], [], [])
    else Passo(Acumular(os[..|os| - 1], instant), os[|os| - 1], instant)
  }

  /** Turn by turn, the accumulators reach the report's totals, extremes and groupings. */
  lemma {:induction false} AcumularIsAcumuladoDe(os: seq<Orcamento>, instant: string -> int)
    ensures Acumular(os, instant) == AcumuladoDe(os, instant)
  {
    if os != [] {
      AcumularIsAcumuladoDe(os[..|os| - 1], instant);
      VendasStep(os, |os| - 1, instant);
      assert os[..|os|] == os;
    }
  }

  /** The callback of the `forEach` over the quotes of the period: every
      accumulator of the sales report, updated for the quote `o`. */
  method AcumularVenda(o: Orcamento, instant: string -> int,
                       total: real, quantidade: nat, maior: real, menor: Option<real>,
                       vendas: seq<Venda>, porForma: seq<Entry<real>>, porCliente: seq<Entry<real>>)
    returns (total': real, quantidade': nat, maior': real, menor': Option<real>,
             vendas': seq<Venda>, porForma': seq<Entry<real>>, porCliente': seq<Entry<real>>)
    ensures Acumulado(total', quantidade', maior', menor', vendas', porForma', porCliente')
         == Passo(Acumulado(total, quantidade, maior, menor, vendas, porForma, porCliente), o, instant)
  {
    var valor := Valor(o);
    total', quantidade' := total + valor, quantidade + 1;
    maior', menor' := maior, menor;
    if valor > maior' { maior' := valor; }
    if menor'.None? || valor < menor'.value { menor' := Some(valor); }
    vendas' := vendas + [VendaOf(o, instant)];
    porForma' := Bump(porForma, Forma(o), valor, AddMoney);
    porCliente' := Bump(porCliente, ClienteNome(o), valor, AddMoney);
  }

  /** The `forEach` over the quotes of the period, from the accumulators'
      initial values. */
  method AcumularVendas(f: seq<Orcamento>, instant: string -> int)
    returns (total: real, quantidade: nat, maior: real, menor: Option<real>,
             vendas: seq<Venda>, porForma: seq<Entry<real>>, porCliente: seq<Entry<real>>)
    ensures Acumulado(total, quantidade, maior, menor, vendas, porForma, porCliente) == AcumuladoDe(f, instant)
  {
    total, quantidade, maior, menor := 0.0, 0, 0.0, None;
    vendas, porForma, porCliente := [], [], [];
    for i := 0 to |f|
      invariant Acumulado(total, quantidade, maior, menor, vendas, porForma, porCliente) == Acumular(f[..i], instant)
    {
      assert f[..i + 1][..i] == f[..i];
      total, quantidade, maior, menor, vendas, porForma, porCliente :=
        AcumularVenda(f[i], instant, total, quantidade, maior, menor, vendas, porForma, porCliente);
    }
    assert f[..|f|] == f;
    AcumularIsAcumuladoDe(f, instant);
  }

  /** `gerarRelatorioVendas`: the quotes of the period, accumulated, then the
      mean and the rows sorted by date, most recent first. */
  method GerarRelatorioVendas(orcamentos: seq<Orcamento>, inicio: Option<int>, fim: Option<int>,
                              instant: string -> int) returns (d: RelatorioVendas)
    ensures var f := FiltrarPorPeriodo(orcamentos, inicio, fim, DataOrcamento(instant));
      && d.resumo == ResumoVendas(Records.Sum(f, Valor), |f|, Media(Records.Sum(f, Valor), |f|), Maior(f), Menor(f))
      && d.porFormaPagamento == GroupBy(f, Forma)
      && d.porCliente == GroupBy(f, ClienteNome)
      && d.vendas == Sorting.Sort(Vendas(f, instant), Sorting.ByKeyDesc(VendaData))
  {
    var f := FiltrarPorPeriodo(orcamentos, inicio, fim, DataOrcamento(instant));
    var total, quantidade, maior, menor, vendas, porForma, porCliente := AcumularVendas(f, instant);
    var media := 0.0;
    if quantidade > 0 {
      media := total / quantidade as real;
    }
    d := RelatorioVendas(ResumoVendas(total, quantidade, media, maior, menor),
                         Sorting.Sort(vendas, Sorting.ByKeyDesc(VendaData)), porForma, porCliente);
  }

  /** The report's summary: the mean lies between the extremes, the groupings
      add up to the total, and the rows are every sale, latest first. */
  lemma RelatorioVendasFacts(f: seq<Orcamento>, instant: string -> int)
    requires f != []
    ensures var total := Records.Sum(f, Valor);
      && Menor(f).Some? && Menor(f).value <= Media(total, |f|) <= Maior(f)
      && Records.Sum(GroupBy(f, Forma), EntryValue) == total
      && Records.Sum(GroupBy(f, ClienteNome), EntryValue) == total
    ensures var r := Sorting.Sort(Vendas(f, instant), Sorting.ByKeyDesc(VendaData));
      && multiset(r) == multiset(Vendas(f, instant))
      && forall i, j | 0 <= i < j < |r| :: r[i].data >= r[j].data
  {
    MenorIsMin(f);
    MediaBetween(f);
    GroupBySum(f, Forma);
    GroupBySum(f, ClienteNome);
    var vs := Vendas(f, instant);
    var r := Sorting.Sort(vs, Sorting.ByKeyDesc(VendaData));
    Sorting.SortByKeyDesc(vs, VendaData);
    VendasRows(f, instant);
    forall i, j | 0 <= i < j < |r| ensures r[i].data >= r[j].data {
      assert VendaData(r[i]) >= VendaData(r[j]);
    }
  }

  // ---------------------------------------------------------------- stock report

  datatype Situacao = Baixo | Esgotado | Normal

  /** The row status: `baixo` is checked first, then `esgotado`. */
  function SituacaoOf(item: EstoqueItem): (s: Situacao)
    ensures s == Baixo <==> Estoque.LowStock(item)
    ensures s == Esgotado <==> !Estoque.LowStock(item) && item.quantidade == Some(0.0)
  {
    if Estoque.LowStock(item) then Baixo
    else if item.quantidade == Some(0.0) then Esgotado
    else Normal
  }

  /** Because `baixo` is checked first, an empty item shows `esgotado` only when
      its minimum is missing or negative. */
  lemma EsgotadoOnlyWithoutMinimum(item: EstoqueItem)
    requires SituacaoOf(item) == Esgotado
    ensures item.quantidade == Some(0.0)
    ensures item.estoqueMinimo.None? || item.estoqueMinimo.value < 0.0
  {
  }

  /** `quantidade * preco` (NaN, `None`, when either is). */
  function ValorItem(item: EstoqueItem): (v: Option<real>)
    ensures v.Some? <==> item.quantidade.Some? && item.preco.Some?
  {
    if item.quantidade.Some? && item.preco.Some? then Some(item.quantidade.value * item.preco.value) else None
  }

  function ValorOuZero(item: EstoqueItem): real { OrZero(ValorItem(item)) }

  /** The running `valorTotal`: a NaN term makes the whole sum NaN. */
  function SomaValores(items: seq<EstoqueItem>): Option<real>
  {
    if items == [] then Some(0.0)
    else Numbers.AddNumbers(SomaValores(items[..|items| - 1]), ValorItem(items[|items| - 1]))
  }

  /** `valorTotal` is a number exactly when every item has a quantity and a
      price, and then it is the sum of quantity times price. */
  lemma {:induction false} SomaValoresIsSum(items: seq<EstoqueItem>)
    ensures SomaValores(items).Some? <==> forall j | 0 <= j < |items| :: ValorItem(items[j]).Some?
    ensures SomaValores(items).Some? ==> SomaValores(items).value == Records.Sum(items, ValorOuZero)
  {
    if items != [] {
      var init := items[..|items| - 1];
      SomaValoresIsSum(init);
      assert forall j | 0 <= j < |init| :: init[j] == items[j];
    }
  }

  predicate SemEstoque(item: EstoqueItem) { item.quantidade == Some(0.0) }

  datatype ItemLinha = ItemLinha(nome: string, codigo: string, categoria: string,
                                 quantidade: Option<real>, estoqueMinimo: Option<real>, preco: Option<real>,
                                 valorTotal: Option<real>, status: Situacao)

  datatype BaixoLinha = BaixoLinha(nome: string, codigo: string, quantidade: real, estoqueMinimo: real,
                                   diferenca: real)

  function LinhaOf(item: EstoqueItem): ItemLinha {
    ItemLinha(item.nome, item.codigo, item.categoria, item.quantidade, item.estoqueMinimo, item.preco,
              ValorItem(item), SituacaoOf(item))
  }

  function LinhaValor(l: ItemLinha): real { OrZero(l.valorTotal) }

  /** The `itens` rows, one per item, in stock order. */
  function Linhas(items: seq<EstoqueItem>): seq<ItemLinha>
  {
    if items == [] then [] else Linhas(items[..|items| - 1]) + [LinhaOf(items[|items| - 1])]
  }

  lemma {:induction false} LinhasRows(items: seq<EstoqueItem>)
    ensures |Linhas(items)| == |items|
    ensures forall j | 0 <= j < |items| :: Linhas(items)[j] == LinhaOf(items[j])
  {
    if items != [] {
      LinhasRows(items[..|items| - 1]);
    }
  }

  /** The shortfall row of a low item. */
  function BaixoOf(item: EstoqueItem): BaixoLinha
    requires Estoque.LowStock(item)
  {
    BaixoLinha(item.nome, item.codigo, item.quantidade.value, item.estoqueMinimo.value,
               item.estoqueMinimo.value - item.quantidade.value)
  }

  /** The `itensBaixoEstoque` rows: one per low item. */
  function BaixoLinhas(items: seq<EstoqueItem>): seq<BaixoLinha>
  {
    if items == [] then []
    else
      var item, prev := items[|items| - 1], BaixoLinhas(items[..|items| - 1]);
      if Estoque.LowStock(item) then prev + [BaixoOf(item)] else prev
  }

  /** There is one shortfall row per low item, and no shortfall is negative. */
  lemma {:induction false} BaixoLinhasFacts(items: seq<EstoqueItem>)
    ensures |BaixoLinhas(items)| == Estoque.CountLow(items)
    ensures forall j | 0 <= j < |BaixoLinhas(items)| :: BaixoLinhas(items)[j].diferenca >= 0.0
  {
    if items != [] {
      BaixoLinhasFacts(items[..|items| - 1]);
    }
  }

  /** `item.categoria || 'Sem categoria'`. */
  function CategoriaOf(item: EstoqueItem): string {
    if item.categoria != "" then item.categoria else "Sem categoria"
  }

  /** `(obj[c] || 0) + item.quantidade`: a NaN sum reads as 0 the next time. */
  function AddQuantidade(prev: Option<Option<real>>, q: Option<real>): Option<real> {
    var base := if prev.Some? && prev.value.Some? then prev.value.value else 0.0;
    if q.Some? then Some(base + q.value) else None
  }

  /** `porCategoria`: the quantity accumulated per category. */
  function PorCategoria(items: seq<EstoqueItem>): seq<Entry<Option<real>>>
  {
    if items == [] then []
    else
      var item := items[|items| - 1];
      Bump(PorCategoria(items[..|items| - 1]), CategoriaOf(item), item.quantidade, AddQuantidade)
  }

  /** Each category appears once, and exactly the categories of the items appear. */
  lemma {:induction false} PorCategoriaKeys(items: seq<EstoqueItem>, c: string)
    ensures Records.UniqueKeys(PorCategoria(items), EntryKey)
    ensures Lookup(PorCategoria(items), c).Some? <==> exists j | 0 <= j < |items| :: CategoriaOf(items[j]) == c
  {
    if items != [] {
      var init, item := items[..|items| - 1], items[|items| - 1];
      PorCategoriaKeys(init, c);
      assert forall j | 0 <= j < |init| :: init[j] == items[j];
      if CategoriaOf(item) != c {
        BumpOther(PorCategoria(init), CategoriaOf(item), item.quantidade, AddQuantidade, c);
      }
    }
  }

  datatype ResumoEstoque = ResumoEstoque(totalItens: nat, valorTotal: Option<real>,
                                         itensBaixoEstoque: nat, itensSemEstoque: nat)

  datatype RelatorioEstoque = RelatorioEstoque(resumo: ResumoEstoque, itens: seq<ItemLinha>,
                                               itensBaixoEstoque: seq<BaixoLinha>,
                                               porCategoria: seq<Entry<Option<real>>>)

  /** The `forEach` over the stock: every accumulator of the stock report. */
  method AcumularEstoque(items: seq<EstoqueItem>)
    returns (valorTotal: Option<real>, baixo: nat, semEstoque: nat, linhas: seq<ItemLinha>,
             baixoLinhas: seq<BaixoLinha>, porCategoria: seq<Entry<Option<real>>>)
    ensures valorTotal == SomaValores(items)
    ensures baixo == Estoque.CountLow(items) && semEstoque == Records.Count(items, SemEstoque)
    ensures linhas == Linhas(items) && baixoLinhas == BaixoLinhas(items) && porCategoria == PorCategoria(items)
  {
    valorTotal, baixo, semEstoque := Some(0.0), 0, 0;
    linhas, baixoLinhas, porCategoria := [], [], [];
    for i := 0 to |items|
      invariant valorTotal == SomaValores(items[..i])
      invariant baixo == Estoque.CountLow(items[..i])
      invariant semEstoque == Records.Count(items[..i], SemEstoque)
      invariant linhas == Linhas(items[..i]) && baixoLinhas == BaixoLinhas(items[..i])
      invariant porCategoria == PorCategoria(items[..i])
    {
      var item := items[i];
      assert items[..i + 1][..i] == items[..i];
      Records.CountPrefix(items, i, SemEstoque);
      var valorItem := ValorItem(item);
      valorTotal := Numbers.AddNumbers(valorTotal, valorItem);
      if Estoque.LowStock(item) {
        baixo := baixo + 1;
      }
      if item.quantidade == Some(0.0) {
        semEstoque := semEstoque + 1;
      }
      linhas := linhas + [LinhaOf(item)];
      if Estoque.LowStock(item) {
        baixoLinhas := baixoLinhas + [BaixoOf(item)];
      }
      porCategoria := Bump(porCategoria, CategoriaOf(item), item.quantidade, AddQuantidade);
    }
    assert items[..|items|] == items;
  }

  /** `gerarRelatorioEstoque`: the stock accumulated, then the rows sorted by
      value, largest first. */
  method GerarRelatorioEstoque(items: seq<EstoqueItem>) returns (d: RelatorioEstoque)
    ensures d.resumo == ResumoEstoque(|items|, SomaValores(items), Estoque.CountLow(items),
                                      Records.Count(items, SemEstoque))
    ensures d.itensBaixoEstoque == BaixoLinhas(items) && d.porCategoria == PorCategoria(items)
    ensures d.itens == Sorting.Sort(Linhas(items), Sorting.ByKeyDesc(LinhaValor))
  {
    var valorTotal, baixo, semEstoque, linhas, baixoLinhas, porCategoria := AcumularEstoque(items);
    d := RelatorioEstoque(ResumoEstoque(|items|, valorTotal, baixo, semEstoque),
                          Sorting.Sort(linhas, Sorting.ByKeyDesc(LinhaValor)), baixoLinhas, porCategoria);
  }

  /** The report's rows hold every item once, largest value first. */
  lemma EstoqueRowsByValue(items: seq<EstoqueItem>)
    ensures var r := Sorting.Sort(Linhas(items), Sorting.ByKeyDesc(LinhaValor));
      && |r| == |items|
      && multiset(r) == multiset(Linhas(items))
      && forall i, j | 0 <= i < j < |r| :: OrZero(r[i].valorTotal) >= OrZero(r[j].valorTotal)
  {
    var r := Sorting.Sort(Linhas(items), Sorting.ByKeyDesc(LinhaValor));
    LinhasRows(items);
    Sorting.SortByKeyDesc(Linhas(items), LinhaValor);
    forall i, j | 0 <= i < j < |r| ensures OrZero(r[i].valorTotal) >= OrZero(r[j].valorTotal) {
      assert LinhaValor(r[i]) >= LinhaValor(r[j]);
    }
  }

  /** With every minimum a non-negative number, each empty item is also counted as low. */
  lemma {:induction false} SemEstoqueCountedLow(items: seq<EstoqueItem>)
    requires forall j | 0 <= j < |items| :: items[j].estoqueMinimo.Some? && items[j].estoqueMinimo.value >= 0.0
    ensures Records.Count(items, SemEstoque) <= Estoque.CountLow(items)
  {
    if items != [] {
      var init := items[..|items| - 1];
      var last := items[|items| - 1];
      assert forall j | 0 <= j < |init| :: init[j] == items[j];
      SemEstoqueCountedLow(init);
      assert items == init + [last];
      Records.CountConcat(init, [last], SemEstoque);
    }
  }

  // ---------------------------------------------------------------- client report

  datatype ClienteResumo = ClienteResumo(nome: string, email: string, telefone: string,
                                         totalCompras: real, quantidadeOrcamentos: nat,
                                         primeiroPedido: int, ultimoPedido: int)

  function ClienteKey(c: ClienteResumo): string { c.nome }

  function Compras(c: ClienteResumo): real { c.totalCompras }

  function Pedidos(c: ClienteResumo): real { c.quantidadeOrcamentos as real }

  /** One step of the `clientesMap` loop for a quote dated `t`. */
  function AddCompra(cs: seq<ClienteResumo>, o: Orcamento, t: int): seq<ClienteResumo>
  {
    var i := Records.IndexOf(cs, ClienteKey, o.cliente.nome);
    var c := if i >= 0 then cs[i]
             else ClienteResumo(o.cliente.nome, o.cliente.email, o.cliente.telefone, 0.0, 0, t, t);
    var c' := c.(totalCompras := c.totalCompras + Valor(o),
                 quantidadeOrcamentos := c.quantidadeOrcamentos + 1,
                 primeiroPedido := if t < c.primeiroPedido then t else c.primeiroPedido,
                 ultimoPedido := if t > c.ultimoPedido then t else c.ultimoPedido);
    if i >= 0 then cs[i := c'] else cs + [c']
  }

  predicate ClientesValid(cs: seq<ClienteResumo>) {
    && Records.UniqueKeys(cs, ClienteKey)
    && forall k | 0 <= k < |cs| :: cs[k].primeiroPedido <= cs[k].ultimoPedido && cs[k].quantidadeOrcamentos >= 1
  }

  /** `Object.values(clientesMap)`: one entry per client name, in order of first quote. */
  function Clientes(os: seq<Orcamento>, instant: string -> int): seq<ClienteResumo>
  {
    if os == [] then []
    else
      var o := os[|os| - 1];
      AddCompra(Clientes(os[..|os| - 1], instant), o, instant(o.dataCriacao))
  }

  lemma AddCompraFacts(cs: seq<ClienteResumo>, o: Orcamento, t: int)
    requires ClientesValid(cs)
    ensures var r := AddCompra(cs, o, t);
      && ClientesValid(r)
      && Records.HasKey(r, ClienteKey, o.cliente.nome)
      && (forall k | 0 <= k < |cs| :: r[k].nome == cs[k].nome)
      && (|r| == |cs| || (|r| == |cs| + 1 && r[|cs|].nome == o.cliente.nome))
  {
    var i := Records.IndexOf(cs, ClienteKey, o.cliente.nome);
    Records.IndexOfFound(cs, ClienteKey, o.cliente.nome);
    var r := AddCompra(cs, o, t);
    if i < 0 {
      assert r[|cs|].nome == o.cliente.nome;
    } else {
      assert r[i].nome == o.cliente.nome;
    }
  }

  /** Every entry is well formed and has its own name. */
  lemma {:induction false} ClientesValidity(os: seq<Orcamento>, instant: string -> int)
    ensures ClientesValid(Clientes(os, instant))
  {
    if os != [] {
      var init, o := os[..|os| - 1], os[|os| - 1];
      ClientesValidity(init, instant);
      AddCompraFacts(Clientes(init, instant), o, instant(o.dataCriacao));
    }
  }

  /** Every quote's client has an entry. */
  lemma {:induction false} ClientesCover(os: seq<Orcamento>, instant: string -> int)
    ensures forall j | 0 <= j < |os| :: Records.HasKey(Clientes(os, instant), ClienteKey, os[j].cliente.nome)
  {
    if os != [] {
      var init, o := os[..|os| - 1], os[|os| - 1];
      ClientesCover(init, instant);
      ClientesValidity(init, instant);
      var prev := Clientes(init, instant);
      var r := Clientes(os, instant);
      AddCompraFacts(prev, o, instant(o.dataCriacao));
      forall j | 0 <= j < |os| ensures Records.HasKey(r, ClienteKey, os[j].cliente.nome) {
        if j < |init| {
          assert os[j] == init[j];
          var p :| 0 <= p < |prev| && prev[p].nome == init[j].cliente.nome;
          assert r[p].nome == prev[p].nome;
        }
      }
    }
  }

  /** Every entry comes from some quote. */
  lemma {:induction false} ClientesFromQuotes(os: seq<Orcamento>, instant: string -> int)
    ensures forall k | 0 <= k < |Clientes(os, instant)| ::
      exists j | 0 <= j < |os| :: os[j].cliente.nome == Clientes(os, instant)[k].nome
  {
    if os != [] {
      var init, o := os[..|os| - 1], os[|os| - 1];
      ClientesFromQuotes(init, instant);
      ClientesValidity(init, instant);
      var prev := Clientes(init, instant);
      var r := Clientes(os, instant);
      AddCompraFacts(prev, o, instant(o.dataCriacao));
      forall k | 0 <= k < |r| ensures exists j | 0 <= j < |os| :: os[j].cliente.nome == r[k].nome {
        if k < |prev| {
          assert r[k].nome == prev[k].nome;
          var j :| 0 <= j < |init| && init[j].cliente.nome == prev[k].nome;
          assert os[j] == init[j];
        } else {
          assert os[|os| - 1].cliente.nome == r[k].nome;
        }
      }
    } else {
      assert Clientes(os, instant) == [];
    }
  }

  /** What one quote does to entry `k`: the entry with the quote's client gains
      its value and one quote, every other entry stays as it was. */
  lemma AddCompraAt(cs: seq<ClienteResumo>, o: Orcamento, t: int, k: int)
    requires Records.UniqueKeys(cs, ClienteKey)
    requires 0 <= k < |AddCompra(cs, o, t)|
    ensures var r := AddCompra(cs, o, t);
      if r[k].nome == o.cliente.nome then
        if k < |cs| then
          r[k].nome == cs[k].nome
          && r[k].totalCompras == cs[k].totalCompras + Valor(o)
          && r[k].quantidadeOrcamentos == cs[k].quantidadeOrcamentos + 1
        else
          !Records.HasKey(cs, ClienteKey, o.cliente.nome)
          && r[k].totalCompras == Valor(o) && r[k].quantidadeOrcamentos == 1
      else k < |cs| && r[k] == cs[k]
  {
    Records.IndexOfFound(cs, ClienteKey, o.cliente.nome);
  }

  /** A client without an entry has no quotes. */
  lemma NoQuotesBefore(os: seq<Orcamento>, instant: string -> int, nome: string)
    requires !Records.HasKey(Clientes(os, instant), ClienteKey, nome)
    ensures WithKey(os, ClienteNome, nome) == []
  {
    ClientesCover(os, instant);
    assert Records.Count(os, (x: Orcamento) => ClienteNome(x) == nome) == 0;
  }

  /** One quote keeps every entry's total and count equal to those of its
      client's quotes so far. */
  lemma ClienteTotalStep(cs: seq<ClienteResumo>, os: seq<Orcamento>, t: int, k: int)
    requires os != []
    requires var init, o := os[..|os| - 1], os[|os| - 1];
      && Records.UniqueKeys(cs, ClienteKey)
      && 0 <= k < |AddCompra(cs, o, t)|
      && (k < |cs| ==> cs[k].totalCompras == Records.Sum(WithKey(init, ClienteNome, cs[k].nome), Valor))
      && (k < |cs| ==> cs[k].quantidadeOrcamentos == |WithKey(init, ClienteNome, cs[k].nome)|)
      && (!Records.HasKey(cs, ClienteKey, o.cliente.nome) ==> WithKey(init, ClienteNome, o.cliente.nome) == [])
    ensures var c := AddCompra(cs, os[|os| - 1], t)[k];
      && c.totalCompras == Records.Sum(WithKey(os, ClienteNome, c.nome), Valor)
      && c.quantidadeOrcamentos == |WithKey(os, ClienteNome, c.nome)|
  {
    var init, o := os[..|os| - 1], os[|os| - 1];
    var c := AddCompra(cs, o, t)[k];
    AddCompraAt(cs, o, t, k);
    WithKeyLast(os, ClienteNome, c.nome);
    var before := WithKey(init, ClienteNome, c.nome);
    if c.nome == o.cliente.nome {
      assert WithKey(os, ClienteNome, c.nome) == before + [o];
      Records.SumSnoc(before, o, Valor);
      if k < |cs| {
        assert before == WithKey(init, ClienteNome, cs[k].nome);
      } else {
        assert before == [];
      }
    } else {
      assert WithKey(os, ClienteNome, c.nome) == before + [];
      assert before + [] == before;
      assert c == cs[k];
    }
  }

  /** A client's entry holds the total and the number of exactly that client's quotes. */
  lemma {:induction false} ClienteTotal(os: seq<Orcamento>, instant: string -> int, k: int)
    requires 0 <= k < |Clientes(os, instant)|
    ensures var c := Clientes(os, instant)[k];
      && c.totalCompras == Records.Sum(WithKey(os, ClienteNome, c.nome), Valor)
      && c.quantidadeOrcamentos == |WithKey(os, ClienteNome, c.nome)|
  {
    var init, o := os[..|os| - 1], os[|os| - 1];
    var cs := Clientes(init, instant);
    ClientesValidity(init, instant);
    if k < |cs| {
      ClienteTotal(init, instant, k);
    }
    if !Records.HasKey(cs, ClienteKey, o.cliente.nome) {
      NoQuotesBefore(init, instant, o.cliente.nome);
    }
    ClienteTotalStep(cs, os, instant(o.dataCriacao), k);
  }

  /** What one quote does to the dates of entry `k`. */
  lemma AddCompraDates(cs: seq<ClienteResumo>, o: Orcamento, t: int, k: int)
    requires Records.UniqueKeys(cs, ClienteKey)
    requires 0 <= k < |AddCompra(cs, o, t)|
    ensures var r := AddCompra(cs, o, t);
      if r[k].nome == o.cliente.nome then
        && r[k].primeiroPedido <= t <= r[k].ultimoPedido
        && (k < |cs| ==> r[k].primeiroPedido <= cs[k].primeiroPedido && cs[k].ultimoPedido <= r[k].ultimoPedido)
      else k < |cs| && r[k] == cs[k]
  {
    Records.IndexOfFound(cs, ClienteKey, o.cliente.nome);
  }

  /** A client's first and last dates bracket the date of each of its quotes,
      so `ultimoPedido` is the date of the client's latest quote. */
  lemma {:induction false} ClienteDates(os: seq<Orcamento>, instant: string -> int, k: int, j: int)
    requires 0 <= k < |Clientes(os, instant)| && 0 <= j < |os|
    requires os[j].cliente.nome == Clientes(os, instant)[k].nome
    ensures Clientes(os, instant)[k].primeiroPedido <= instant(os[j].dataCriacao)
    ensures instant(os[j].dataCriacao) <= Clientes(os, instant)[k].ultimoPedido
  {
    var init, o := os[..|os| - 1], os[|os| - 1];
    var cs := Clientes(init, instant);
    var c := Clientes(os, instant)[k];
    ClientesValidity(init, instant);
    AddCompraDates(cs, o, instant(o.dataCriacao), k);
    if j < |init| {
      assert os[j] == init[j];
      if c.nome == o.cliente.nome && k == |cs| {
        AddCompraAt(cs, o, instant(o.dataCriacao), k);
        ClientesCover(init, instant);
        assert false;
      } else {
        ClienteDates(init, instant, k, j);
      }
    }
  }

  /** The clients' totals add up to the total of all quotes. */
  lemma {:induction false} ClientesCompras(os: seq<Orcamento>, instant: string -> int)
    ensures Records.Sum(Clientes(os, instant), Compras) == Records.Sum(os, Valor)
  {
    if os != [] {
      var init, o := os[..|os| - 1], os[|os| - 1];
      ClientesCompras(init, instant);
      var cs := Clientes(init, instant);
      var i := Records.IndexOf(cs, ClienteKey, o.cliente.nome);
      var r := AddCompra(cs, o, instant(o.dataCriacao));
      if i >= 0 {
        Records.SumUpdate(cs, Compras, i, r[i]);
      } else {
        assert r[..|cs|] == cs;
      }
    }
  }

  /** The clients' quote counts add up to the number of quotes. */
  lemma {:induction false} ClientesPedidos(os: seq<Orcamento>, instant: string -> int)
    ensures Records.Sum(Clientes(os, instant), Pedidos) == |os| as real
  {
    if os != [] {
      var init, o := os[..|os| - 1], os[|os| - 1];
      ClientesPedidos(init, instant);
      var cs := Clientes(init, instant);
      var i := Records.IndexOf(cs, ClienteKey, o.cliente.nome);
      var r := AddCompra(cs, o, instant(o.dataCriacao));
      if i >= 0 {
        Records.SumUpdate(cs, Pedidos, i, r[i]);
      } else {
        assert r[..|cs|] == cs;
      }
    }
  }

  predicate Ativo(c: ClienteResumo, limite: int) { c.ultimoPedido >= limite }

  /** `topClientes`: by `totalCompras`, largest first, at most ten. */
  function TopClientes(cs: seq<ClienteResumo>): (top: seq<ClienteResumo>)
    ensures |top| <= 10 && |top| <= |cs|
    ensures |cs| >= 10 ==> |top| == 10
    ensures forall i, j | 0 <= i < j < |top| :: top[i].totalCompras >= top[j].totalCompras
    ensures multiset(top) <= multiset(cs)
  {
    var sorted := Sorting.Sort(cs, Sorting.ByKeyDesc(Compras));
    Sorting.SortByKeyDesc(cs, Compras);
    var n := if |sorted| < 10 then |sorted| else 10;
    var top := sorted[..n];
    assert sorted == top + sorted[n..];
    forall i, j | 0 <= i < j < n ensures top[i].totalCompras >= top[j].totalCompras {
      assert Compras(sorted[i]) >= Compras(sorted[j]);
    }
    top
  }

  datatype ResumoClientes = ResumoClientes(totalClientes: nat, clientesAtivos: nat, clientesInativos: nat)

  datatype RelatorioClientes = RelatorioClientes(resumo: ResumoClientes, clientes: seq<ClienteResumo>,
                                                 topClientes: seq<ClienteResumo>)

  /** The `clientesMap` loop over every quote. */
  method ColetarClientes(orcamentos: seq<Orcamento>, instant: string -> int) returns (cs: seq<ClienteResumo>)
    ensures cs == Clientes(orcamentos, instant)
  {
    cs := [];
    for i := 0 to |orcamentos|
      invariant cs == Clientes(orcamentos[..i], instant)
    {
      var o := orcamentos[i];
      assert orcamentos[..i + 1][..i] == orcamentos[..i];
      cs := AddCompra(cs, o, instant(o.dataCriacao));
    }
    assert orcamentos[..|orcamentos|] == orcamentos;
  }

  /** `clientesAtivos` and `clientesInativos`: one of the two counters goes up
      for every client. */
  method ContarAtivos(cs: seq<ClienteResumo>, limite: int) returns (ativos: nat, inativos: nat)
    ensures ativos == Records.Count(cs, (c: ClienteResumo) => Ativo(c, limite))
    ensures inativos == Records.Count(cs, (c: ClienteResumo) => !Ativo(c, limite))
    ensures ativos + inativos == |cs|
  {
    var ativo := (c: ClienteResumo) => Ativo(c, limite);
    var inativo := (c: ClienteResumo) => !Ativo(c, limite);
    ativos, inativos := 0, 0;
    for i := 0 to |cs|
      invariant ativos == Records.Count(cs[..i], ativo)
      invariant inativos == Records.Count(cs[..i], inativo)
    {
      Records.CountPrefix(cs, i, ativo);
      Records.CountPrefix(cs, i, inativo);
      if cs[i].ultimoPedido >= limite {
        ativos := ativos + 1;
      } else {
        inativos := inativos + 1;
      }
    }
    assert cs[..|cs|] == cs;
    Records.CountComplement(cs, ativo, inativo);
  }

  /** `gerarRelatorioClientes` at instant `now`: a client is active when its last
      quote is at most 30 days old. */
  method GerarRelatorioClientes(orcamentos: seq<Orcamento>, instant: string -> int, now: int)
    returns (d: RelatorioClientes)
    ensures d.clientes == Clientes(orcamentos, instant)
    ensures var limite := now - 30 * Calendar.DayMs;
      d.resumo == ResumoClientes(|d.clientes|,
                                 Records.Count(d.clientes, (c: ClienteResumo) => Ativo(c, limite)),
                                 Records.Count(d.clientes, (c: ClienteResumo) => !Ativo(c, limite)))
    ensures d.resumo.clientesAtivos + d.resumo.clientesInativos == d.resumo.totalClientes
    ensures d.topClientes == TopClientes(d.clientes)
  {
    var cs := ColetarClientes(orcamentos, instant);
    var ativos, inativos := ContarAtivos(cs, now - 30 * Calendar.DayMs);
    d := RelatorioClientes(ResumoClientes(|cs|, ativos, inativos), cs, TopClientes(cs));
  }

  // ---------------------------------------------------------------- profit and loss

  predicate Realizado(o: Orcamento) { o.status == "aprovado" || o.status == "concluido" }

  /** `despesa.valor || 0`: an amount that is not a number counts as 0. */
  function ContaValor(c: Conta): real { OrZero(c.valor) }

  /** `margemLucro`: profit over revenue, in percent, when there is revenue. */
  function Margem(receita: real, despesa: real): (m: real)
    ensures receita <= 0.0 ==> m == 0.0
    ensures receita > 0.0 ==> (m >= 0.0 <==> despesa <= receita)
    ensures receita > 0.0 && despesa >= 0.0 ==> m <= 100.0
  {
    if receita > 0.0 then ((receita - despesa) / receita) * 100.0 else 0.0
  }

  datatype ReceitaLinha = ReceitaLinha(data: int, descricao: string, cliente: string, valor: real)

  datatype DespesaLinha = DespesaLinha(data: int, descricao: string, categoria: string, valor: real)

  datatype LucroPrejuizo = LucroPrejuizo(receitaTotal: real, despesaTotal: real, lucroPrejuizo: real,
                                         margemLucro: real, detalhesReceitas: seq<ReceitaLinha>,
                                         detalhesDespesas: seq<DespesaLinha>)

  function ReceitaOf(o: Orcamento, instant: string -> int): ReceitaLinha {
    ReceitaLinha(instant(o.dataCriacao), o.descricao, o.cliente.nome, Valor(o))
  }

  /** `new Date(despesa.vencimento || despesa.data)`; an account has no `data`. */
  function DespesaOf(c: Conta, instant: string -> int): DespesaLinha {
    DespesaLinha(if c.vencimento.Some? then c.vencimento.value else instant(""), c.descricao,
                 if c.categoria != "" then c.categoria else "Despesa", ContaValor(c))
  }

  /** `gerarRelatorioLucroPrejuizo`'s revenue rows, one per quote, in order. */
  function Receitas(os: seq<Orcamento>, instant: string -> int): seq<ReceitaLinha>
  {
    if os == [] then [] else Receitas(os[..|os| - 1], instant) + [ReceitaOf(os[|os| - 1], instant)]
  }

  /** The expense rows, one per account, in order. */
  function Despesas(cs: seq<Conta>, instant: string -> int): seq<DespesaLinha>
  {
    if cs == [] then [] else Despesas(cs[..|cs| - 1], instant) + [DespesaOf(cs[|cs| - 1], instant)]
  }

  function ReceitaValor(l: ReceitaLinha): real { l.valor }

  function DespesaValor(l: DespesaLinha): real { l.valor }

  /** One revenue row per quote, in the quotes' order. */
  lemma {:induction false} ReceitasRows(os: seq<Orcamento>, instant: string -> int)
    ensures |Receitas(os, instant)| == |os|
    ensures forall j | 0 <= j < |os| :: Receitas(os, instant)[j] == ReceitaOf(os[j], instant)
  {
    if os != [] {
      ReceitasRows(os[..|os| - 1], instant);
    }
  }

  /** The revenue rows add up to the revenue. */
  lemma {:induction false} ReceitasSum(os: seq<Orcamento>, instant: string -> int)
    ensures Records.Sum(Receitas(os, instant), ReceitaValor) == Records.Sum(os, Valor)
  {
    if os != [] {
      var init, o := os[..|os| - 1], os[|os| - 1];
      ReceitasSum(init, instant);
      Records.SumSnoc(Receitas(init, instant), ReceitaOf(o, instant), ReceitaValor);
    }
  }

  /** One expense row per account, in the accounts' order. */
  lemma {:induction false} DespesasRows(cs: seq<Conta>, instant: string -> int)
    ensures |Despesas(cs, instant)| == |cs|
    ensures forall j | 0 <= j < |cs| :: Despesas(cs, instant)[j] == DespesaOf(cs[j], instant)
  {
    if cs != [] {
      DespesasRows(cs[..|cs| - 1], instant);
    }
  }

  /** The expense rows add up to the expenses. */
  lemma {:induction false} DespesasSum(cs: seq<Conta>, instant: string -> int)
    ensures Records.Sum(Despesas(cs, instant), DespesaValor) == Records.Sum(cs, ContaValor)
  {
    if cs != [] {
      var init, c := cs[..|cs| - 1], cs[|cs| - 1];
      DespesasSum(init, instant);
      Records.SumSnoc(Despesas(init, instant), DespesaOf(c, instant), DespesaValor);
    }
  }

  /** The `forEach` over the revenue quotes. */
  method SomarReceitas(os: seq<Orcamento>, instant: string -> int) returns (total: real, linhas: seq<ReceitaLinha>)
    ensures total == Records.Sum(os, Valor)
    ensures linhas == Receitas(os, instant)
  {
    total, linhas := 0.0, [];
    for i := 0 to |os|
      invariant total == Records.Sum(os[..i], Valor)
      invariant linhas == Receitas(os[..i], instant)
    {
      assert os[..i + 1][..i] == os[..i];
      total := total + Valor(os[i]);
      linhas := linhas + [ReceitaOf(os[i], instant)];
    }
    assert os[..|os|] == os;
  }

  /** The `forEach` over the payables of the period. */
  method SomarDespesas(cs: seq<Conta>, instant: string -> int) returns (total: real, linhas: seq<DespesaLinha>)
    ensures total == Records.Sum(cs, ContaValor)
    ensures linhas == Despesas(cs, instant)
  {
    total, linhas := 0.0, [];
    for i := 0 to |cs|
      invariant total == Records.Sum(cs[..i], ContaValor)
      invariant linhas == Despesas(cs[..i], instant)
    {
      assert cs[..i + 1][..i] == cs[..i];
      total := total + OrZero(cs[i].valor);
      linhas := linhas + [DespesaOf(cs[i], instant)];
    }
    assert cs[..|cs| ] == cs;
  }

  /** The revenue of a period: its approved or finished quotes. */
  function ReceitasDoPeriodo(orcamentos: seq<Orcamento>, inicio: Option<int>, fim: Option<int>,
                             instant: string -> int): (r: seq<Orcamento>)
    ensures forall j | 0 <= j < |r| :: Realizado(r[j]) && r[j] in orcamentos
  {
    Records.Filter(FiltrarPorPeriodo(orcamentos, inicio, fim, DataOrcamento(instant)), Realizado)
  }

  /** The expenses of a period; none when there are no payables at all. */
  function DespesasDoPeriodo(contasPagar: Option<seq<Conta>>, inicio: Option<int>, fim: Option<int>,
                             instant: string -> int): (r: seq<Conta>)
    ensures contasPagar.None? ==> r == []
    ensures contasPagar.Some? ==> forall j | 0 <= j < |r| :: r[j] in contasPagar.value
  {
    if contasPagar.Some? then FiltrarPorPeriodo(contasPagar.value, inicio, fim, DataConta(instant)) else []
  }

  /** `gerarRelatorioLucroPrejuizo`: approved or finished quotes of the period
      against the payables of the period (`None` when the store has none). */
  method GerarRelatorioLucroPrejuizo(orcamentos: seq<Orcamento>, contasPagar: Option<seq<Conta>>,
                                     inicio: Option<int>, fim: Option<int>, instant: string -> int)
    returns (d: LucroPrejuizo)
    ensures var receitas := ReceitasDoPeriodo(orcamentos, inicio, fim, instant);
      var despesas := DespesasDoPeriodo(contasPagar, inicio, fim, instant);
      && d.receitaTotal == Records.Sum(receitas, Valor)
      && d.despesaTotal == Records.Sum(despesas, ContaValor)
      && d.detalhesReceitas == Receitas(receitas, instant)
      && d.detalhesDespesas == Despesas(despesas, instant)
    ensures d.lucroPrejuizo == d.receitaTotal - d.despesaTotal
    ensures d.margemLucro == Margem(d.receitaTotal, d.despesaTotal)
  {
    var receitas := ReceitasDoPeriodo(orcamentos, inicio, fim, instant);
    var receita, linhasReceita := SomarReceitas(receitas, instant);
    var despesa, linhasDespesa := 0.0, [];
    if contasPagar.Some? {
      var despesas := FiltrarPorPeriodo(contasPagar.value, inicio, fim, DataConta(instant));
      despesa, linhasDespesa := SomarDespesas(despesas, instant);
    }
    var lucro := receita - despesa;
    var margem := 0.0;
    if receita > 0.0 {
      margem := (lucro / receita) * 100.0;
    }
    d := LucroPrejuizo(receita, despesa, lucro, margem, linhasReceita, linhasDespesa);
  }
}
