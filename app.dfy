/** The application object: the pt-BR money parser, the stored data and its
    default shape, module navigation, and the dashboard's receivables card. */
module App {
  import opened Wrappers
  import opened Text
  import opened Numbers
  import Records
  import Calendar
  import Financeiro
  import Orcamentos
  import Ordens
  import Clientes
  import Estoque

  // ---------------------------------------------------------------- parseCurrencyValue

  /** What `parseCurrencyValue` can be handed: a number (`None` is NaN), text,
      or a missing value (`null`, `undefined`). */
  datatype Input = Number(n: Option<real>) | Text(s: string) | Missing

  predicate MoneyChar(c: char) { IsDigit(c) || c == ',' || c == '-' }

  /** `str.replace(/[^0-9,-]/g, '')`: the digits, commas and minus signs, in order. */
  function KeepMoneyChars(s: string): (r: string)
    ensures |r| <= |s|
    ensures forall i | 0 <= i < |r| :: MoneyChar(r[i])
  {
    if s == [] then []
    else if MoneyChar(s[0]) then [s[0]] + KeepMoneyChars(s[1..])
    else KeepMoneyChars(s[1..])
  }

  /** The filter distributes over concatenation. */
  lemma {:induction false} KeepConcat(a: string, b: string)
    ensures KeepMoneyChars(a + b) == KeepMoneyChars(a) + KeepMoneyChars(b)
  {
    if a != [] {
      assert (a + b)[1..] == a[1..] + b;
      KeepConcat(a[1..], b);
    } else {
      assert a + b == b;
    }
  }

  /** Text made only of digits, commas and minus signs passes unchanged. */
  lemma {:induction false} KeepPlain(s: string)
    requires forall i | 0 <= i < |s| :: MoneyChar(s[i])
    ensures KeepMoneyChars(s) == s
  {
    if s != [] {
      KeepPlain(s[1..]);
      assert s == [s[0]] + s[1..];
    }
  }

  /** Text with no digit, comma or minus sign disappears. */
  lemma {:induction false} KeepNone(s: string)
    requires forall i | 0 <= i < |s| :: !MoneyChar(s[i])
    ensures KeepMoneyChars(s) == []
  {
    if s != [] {
      KeepNone(s[1..]);
    }
  }

  /** The text `Number` reads: filtered, its first `.` dropped and its first
      `,` turned into the decimal point. */
  function Cleaned(s: string): string {
    ReplaceFirst(ReplaceFirst(KeepMoneyChars(s), ".", ""), ",", ".")
  }

  /** `parseCurrencyValue`: numbers pass through; a missing value or `''` is 0;
      other text is cleaned and `Number(...) || 0` reads it, NaN becoming 0. */
  function ParseCurrencyValue(v: Input): (r: Option<real>)
    ensures v.Number? ==> r == v.n
    ensures !v.Number? ==> r.Some?
    ensures v.Missing? || v == Text("") ==> r == Some(0.0)
    ensures v.Text? && v.s != "" && NumberOf(Cleaned(v.s)).None? ==> r == Some(0.0)
    ensures v.Text? && v.s != "" && NumberOf(Cleaned(v.s)).Some? ==> r == NumberOf(Cleaned(v.s))
  {
    match v
    case Number(n) => n
    case Missing => Some(0.0)
    case Text(s) =>
      if s == "" then Some(0.0)
      else Some(OrZero(NumberOf(Cleaned(s))))
  }

  /** The `.replace('.', '')` step never finds a point: the filter has removed them all. */
  lemma PointAlreadyGone(s: string)
    ensures ReplaceFirst(KeepMoneyChars(s), ".", "") == KeepMoneyChars(s)
  {
    ReplaceFirstCharAbsent(KeepMoneyChars(s), '.', "");
  }

  /** Digits, a comma and digits survive the filter unchanged. */
  lemma DecimalKept(a: string, b: string)
    requires AllDigits(a) && AllDigits(b)
    ensures KeepMoneyChars(a + ("," + b)) == a + [','] + b
  {
    var s := a + ("," + b);
    forall i | 0 <= i < |s| ensures MoneyChar(s[i]) {
      if i < |a| {
        assert s[i] == a[i];
      } else if i > |a| {
        assert s[i] == b[i - |a| - 1];
      }
    }
    KeepPlain(s);
    assert s == a + [','] + b;
  }

  /** The comma of digits, a comma and digits becomes the decimal point. */
  lemma DecimalComma(a: string, b: string)
    requires AllDigits(a)
    ensures ReplaceFirst(a + [','] + b, ",", ".") == a + ("." + b)
  {
    forall i | 0 <= i < |a| ensures a[i] != ',' {
      assert IsDigit(a[i]);
    }
    ReplaceFirstCharAfter(a, ',', b, ".");
    assert a + "." + b == a + ("." + b);
  }

  /** `Number` of a whole decimal literal is its value. */
  lemma NumberOfLexed(t: string, l: Lexed)
    requires t != [] && Lex(t) == l && l.rest == [] && l.whole != []
    ensures NumberOf(t) == Some(LexValue(l))
  {
  }

  /** `Number` of digits, a point and digits. */
  lemma NumberOfDecimal(a: string, b: string)
    requires AllDigits(a) && AllDigits(b) && a != []
    ensures NumberOf(a + ("." + b)) == Some(DecimalValue(a, b))
  {
    var t := a + ("." + b);
    var l := Lexed(false, a, b, []);
    LexUnsignedPoint(a, b);
    assert t[0] == a[0];
    assert Lex(t) == l;
    NumberOfLexed(t, l);
  }


  predicate NoDigits(s: string) {
    forall i | 0 <= i < |s| :: !IsDigit(s[i])
  }

  /** The filter adds no digit. */
  lemma {:induction false} KeepNoDigits(s: string)
    requires NoDigits(s)
    ensures NoDigits(KeepMoneyChars(s))
  {
    if s != [] {
      KeepNoDigits(s[1..]);
    }
  }

  /** Replacing by digit-free text adds no digit. */
  lemma {:induction false} ReplaceFirstNoDigits(s: string, pat: string, rep: string)
    requires pat != [] && NoDigits(s) && NoDigits(rep)
    ensures NoDigits(ReplaceFirst(s, pat, rep))
    decreases |s|
  {
    if |s| >= |pat| && s[..|pat|] != pat {
      ReplaceFirstNoDigits(s[1..], pat, rep);
      var r := [s[0]] + ReplaceFirst(s[1..], pat, rep);
      forall i | 0 <= i < |r| ensures !IsDigit(r[i]) {
        if i > 0 {
          assert r[i] == ReplaceFirst(s[1..], pat, rep)[i - 1];
        }
      }
    } else if |s| >= |pat| {
      var r := rep + s[|pat|..];
      forall i | 0 <= i < |r| ensures !IsDigit(r[i]) {
        if i >= |rep| {
          assert r[i] == s[|pat| + i - |rep|];
        }
      }
    }
  }

  /** Text without digits has no decimal literal: `Number` reads it as NaN,
      unless it is empty. */
  lemma NumberOfNoDigits(t: string)
    requires NoDigits(t)
    ensures t == [] || NumberOf(t).None?
  {
    if t != [] {
      var x := if t[0] == '-' then t[1..] else t;
      assert x == [] || !IsDigit(x[0]);
      var u := x[DigitRun(x)..];
      assert u == x;
      assert |u| <= 1 || !IsDigit(u[1]);
    }
  }

  /** `Number(...) || 0` turns text without a digit into 0: `"-"`, `"abc"`,
      `"R$ ,"` all give 0. */
  lemma ParseCurrencyNoDigits(s: string)
    requires s != "" && NoDigits(s)
    ensures ParseCurrencyValue(Text(s)) == Some(0.0)
  {
    KeepNoDigits(s);
    PointAlreadyGone(s);
    ReplaceFirstNoDigits(KeepMoneyChars(s), ",", ".");
    NumberOfNoDigits(Cleaned(s));
  }

  /** A minus sign inside the digits leaves text after the literal: 0. */
  lemma ParseCurrencyInnerMinus()
    ensures ParseCurrencyValue(Text("1-2")) == Some(0.0)
  {
    var t := "1-2";
    KeepPlain(t);
    ReplaceFirstCharAbsent(t, '.', "");
    ReplaceFirstCharAbsent(t, ',', ".");
    assert Cleaned(t) == t;
    assert t[1..] == "-2";
    assert DigitRun(t) == 1;
    assert Lex(t).rest == "-2";
  }

  /** Digits, a comma and digits read as a decimal number with the comma as
      the decimal point. */
  lemma ParseCurrencyDecimal(a: string, b: string)
    requires AllDigits(a) && AllDigits(b) && a != []
    ensures ParseCurrencyValue(Text(a + ("," + b)))
      == Some(DecimalValue(a, b))
  {
    var s := a + ("," + b);
    var k := KeepMoneyChars(s);
    DecimalKept(a, b);
    PointAlreadyGone(s);
    assert ReplaceFirst(k, ".", "") == a + [','] + b;
    DecimalComma(a, b);
    NumberOfDecimal(a, b);
  }

  /** The filtered text of `R$ u.t,c`. */
  lemma SeparatedKept(u: string, t: string, c: string)
    requires AllDigits(u) && AllDigits(t) && AllDigits(c)
    ensures KeepMoneyChars("R$ " + u + "." + t + "," + c) == u + t + "," + c
  {
    var p1 := "R$ " + u;
    var p2 := p1 + ".";
    var p3 := p2 + t;
    var p4 := p3 + ",";
    KeepNone("R$ ");
    KeepNone(".");
    KeepPlain(u);
    KeepPlain(t);
    KeepPlain(",");
    KeepPlain(c);
    KeepConcat("R$ ", u);
    assert KeepMoneyChars(p1) == u;
    KeepConcat(p1, ".");
    assert KeepMoneyChars(p2) == u;
    KeepConcat(p2, t);
    assert KeepMoneyChars(p3) == u + t;
    KeepConcat(p3, ",");
    assert KeepMoneyChars(p4) == u + t + ",";
    KeepConcat(p4, c);
  }

  /** The filtered text of `u t,c` without separators. */
  lemma PlainKept(u: string, t: string, c: string)
    requires AllDigits(u) && AllDigits(t) && AllDigits(c)
    ensures KeepMoneyChars(u + t + "," + c) == u + t + "," + c
  {
    var s := u + t + "," + c;
    forall i | 0 <= i < |s| ensures MoneyChar(s[i]) {
      if i < |u| {
        assert s[i] == u[i];
      } else if i < |u| + |t| {
        assert s[i] == t[i - |u|];
      } else if i > |u| + |t| {
        assert s[i] == c[i - |u| - |t| - 1];
      }
    }
    KeepPlain(s);
  }

  /** The currency prefix and the thousands points are dropped before reading:
      `R$ 1.234,56` reads as `1234,56`. */
  lemma ParseCurrencyIgnoresSeparators(units: string, thousands: string, cents: string)
    requires AllDigits(units) && AllDigits(thousands) && AllDigits(cents) && units != []
    ensures ParseCurrencyValue(Text("R$ " + units + "." + thousands + "," + cents))
      == ParseCurrencyValue(Text(units + thousands + "," + cents))
  {
    SeparatedKept(units, thousands, cents);
    PlainKept(units, thousands, cents);
  }

  // ---------------------------------------------------------------- stored data

  datatype FinanceiroData = FinanceiroData(contasReceber: seq<Financeiro.Conta>,
                                           contasPagar: seq<Financeiro.Conta>,
                                           caixa: seq<Financeiro.Caixa>)

  datatype Data = Data(orcamentos: seq<Orcamentos.Orcamento>, ordensServico: seq<Ordens.OrdemServico>,
                       clientes: seq<Clientes.Cliente>, estoque: seq<Estoque.EstoqueItem>,
                       financeiro: FinanceiroData)

  predicate IsEmpty(d: Data) {
    && d.orcamentos == [] && d.ordensServico == [] && d.clientes == [] && d.estoque == []
    && d.financeiro.contasReceber == [] && d.financeiro.contasPagar == [] && d.financeiro.caixa == []
  }

  /** The data used when nothing is stored yet. */
  function DefaultData(): (d: Data)
    ensures IsEmpty(d)
  {
    Data([], [], [], [], FinanceiroData([], [], []))
  }

  /** The application object's state. */
  class Application {
    var data: Data

    constructor()
      ensures IsEmpty(data)
    {
      data := DefaultData();
    }

    /** `loadData`: the stored data (already parsed; `None` when nothing is
        stored under `izakData`), or the empty default. */
    method LoadData(stored: Option<Data>)
      modifies this
      ensures stored.Some? ==> data == stored.value
      ensures stored.None? ==> IsEmpty(data)
    {
      if stored.Some? {
        data := stored.value;
      } else {
        data := DefaultData();
      }
    }
  }

  // ---------------------------------------------------------------- navigation

  /** `if (!moduleName || moduleName === "null") moduleName = "dashboard"`;
      `None` is `null` or `undefined`. */
  function ModuleToLoad(name: Option<string>): (m: string)
    ensures m == "dashboard" <==> name.None? || name.value in {"", "null", "dashboard"}
    ensures m != "dashboard" ==> name == Some(m)
    ensures m != "" && m != "null"
  {
    if name.None? || name.value == "" || name.value == "null" then "dashboard" else name.value
  }

  const Titles: map<string, string> := map[
    "dashboard" := "Dashboard",
    "orcamentos" := "Orçamentos",
    "os" := "Ordens de Serviço",
    "financeiro" := "Financeiro",
    "estoque" := "Estoque",
    "clientes" := "Clientes",
    "relatorios" := "Relatórios"]

  /** `getModuleTitle`: the title of a known module, any other name as it is. */
  function ModuleTitle(name: string): (t: string)
    ensures name !in Titles ==> t == name
    ensures name in Titles ==> t in Titles.Values
  {
    if name in Titles then Titles[name] else name
  }

  /** The seven known modules have seven different titles, none of them empty. */
  lemma TitlesDistinct(a: string, b: string)
    requires a in Titles && b in Titles && a != b
    ensures ModuleTitle(a) != ModuleTitle(b)
    ensures ModuleTitle(a) != ""
  {
    assert Titles.Keys == {"dashboard", "orcamentos", "os", "financeiro", "estoque", "clientes", "relatorios"};
  }

  /** The title shown after loading a module is never empty and never "null". */
  lemma ShownTitle(name: Option<string>)
    ensures ModuleTitle(ModuleToLoad(name)) != ""
    ensures ModuleTitle(ModuleToLoad(name)) != "null"
    ensures ModuleToLoad(name) == "dashboard" ==> ModuleTitle(ModuleToLoad(name)) == "Dashboard"
  {
  }

  // ---------------------------------------------------------------- dashboard

  predicate NaoPaga(c: Financeiro.Conta) { c.status != "pago" }

  predicate Paga(c: Financeiro.Conta) { c.status == "pago" }

  /** `Number(cr.valor) || 0`: an amount that is not a number counts as 0. */
  function Valor(c: Financeiro.Conta): real { OrZero(c.valor) }

  predicate Numeric(c: Financeiro.Conta) { c.valor.Some? }

  /** The receivables card: the sum of the amounts of the receivables not paid. */
  function TotalReceber(contas: seq<Financeiro.Conta>): real {
    Records.Sum(Records.Filter(contas, NaoPaga), Valor)
  }

  lemma SingleSum(c: Financeiro.Conta)
    ensures Records.Sum([c], Valor) == OrZero(c.valor)
  {
    Records.SumSnoc([], c, Valor);
    assert [] + [c] == [c];
  }

  /** The card and the paid receivables share out the sum of all receivables. */
  lemma {:induction false} TotalReceberSplit(contas: seq<Financeiro.Conta>)
    ensures TotalReceber(contas) + Records.Sum(Records.Filter(contas, Paga), Valor) == Records.Sum(contas, Valor)
  {
    if contas != [] {
      var c, rest := contas[0], contas[1..];
      TotalReceberSplit(rest);
      assert contas == [c] + rest;
      Records.SumConcat([c], rest, Valor);
      SingleSum(c);
      var hn: seq<Financeiro.Conta> := if NaoPaga(c) then [c] else [];
      var hp: seq<Financeiro.Conta> := if Paga(c) then [c] else [];
      assert Records.Filter(contas, NaoPaga) == hn + Records.Filter(rest, NaoPaga);
      assert Records.Filter(contas, Paga) == hp + Records.Filter(rest, Paga);
      Records.SumConcat(hn, Records.Filter(rest, NaoPaga), Valor);
      Records.SumConcat(hp, Records.Filter(rest, Paga), Valor);
    }
  }

  /** A new receivable raises the card by its amount unless it is already paid;
      one whose amount is not a number leaves the card as it was. */
  lemma TotalReceberAppend(contas: seq<Financeiro.Conta>, c: Financeiro.Conta)
    ensures TotalReceber(contas + [c]) == TotalReceber(contas) + (if NaoPaga(c) then OrZero(c.valor) else 0.0)
    ensures c.valor.None? ==> TotalReceber(contas + [c]) == TotalReceber(contas)
  {
    Records.FilterConcat(contas, [c], NaoPaga);
    Records.SumConcat(Records.Filter(contas, NaoPaga), Records.Filter([c], NaoPaga), Valor);
    if NaoPaga(c) {
      assert Records.Filter([c], NaoPaga) == [c];
      Records.SumSnoc([], c, Valor);
    } else {
      assert Records.Filter([c], NaoPaga) == [];
    }
  }

  /** The receivables whose amount is not a number do not count: the card is
      the card of the receivables with a numeric amount. */
  lemma {:induction false} TotalReceberIgnoresNaN(contas: seq<Financeiro.Conta>)
    ensures TotalReceber(contas) == TotalReceber(Records.Filter(contas, Numeric))
  {
    if contas != [] {
      var init, c := contas[..|contas| - 1], contas[|contas| - 1];
      assert contas == init + [c];
      TotalReceberIgnoresNaN(init);
      TotalReceberAppend(init, c);
      Records.FilterConcat(init, [c], Numeric);
      if Numeric(c) {
        assert Records.Filter([c], Numeric) == [c];
        TotalReceberAppend(Records.Filter(init, Numeric), c);
      } else {
        assert Records.Filter([c], Numeric) == [];
        assert Records.Filter(init, Numeric) + [] == Records.Filter(init, Numeric);
      }
    }
  }

  /** `isToday`: the same date, month and year as today. */
  predicate IsToday(d: Calendar.Now, today: Calendar.Now) {
    d.date == today.date && d.month == today.month && d.year == today.year
  }

  /** For valid readings, `isToday` holds exactly when both instants fall on the same day. */
  lemma IsTodaySameDay(d: Calendar.Now, today: Calendar.Now)
    requires Calendar.ValidNow(d) && Calendar.ValidNow(today)
    ensures IsToday(d, today) <==> Calendar.Day(Calendar.Instant(d)) == Calendar.Day(Calendar.Instant(today))
  {
    Calendar.SameDayIffSameDate(d, today);
  }
}
