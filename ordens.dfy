/** Service orders (modules/os.js): steps and progress, the overdue flag, save,
    delete and "mark as finished", the statistics counters, the list order, the
    order number and the completion date. Instants are milliseconds since the
    epoch; the form's date inputs are day numbers, stored at midnight UTC. */
module Ordens {
  import opened Wrappers
  import Text
  import Records
  import Sorting

  const DayMs: int := 86400000

  /** One step row of the form: its description input and its status select. */
  datatype EtapaRow = EtapaRow(descricao: string, status: string)

  datatype Etapa = Etapa(descricao: string, status: string, dataCriacao: int)

  datatype OrdemServico = OrdemServico(
    id: string, numero: string, dataAbertura: int, cliente: string, contato: string,
    descricao: string, responsavel: string, prioridade: string, status: string,
    dataInicio: Option<int>, prazo: int, dataConclusao: Option<int>, valor: real,
    materiais: string, etapas: seq<Etapa>, progresso: int, orcamentoId: Option<string>,
    observacoes: string, dataAtualizacao: int, atrasada: bool)

  /** The form; `id` is empty for a new order, dates are day numbers, numbers
      are `parseInt`/`parseFloat` readings (`None` for NaN). */
  datatype OSForm = OSForm(
    id: string, numero: string, dataAbertura: int, cliente: string, contato: string,
    descricao: string, responsavel: string, prioridade: string, status: string,
    dataInicio: Option<int>, prazo: Option<int>, dataConclusao: Option<int>, valor: Option<real>,
    materiais: string, etapas: seq<EtapaRow>, orcamentoId: string, observacoes: string)

  function OSId(o: OrdemServico): string { o.id }

  // ---------------------------------------------------------------- steps and progress

  /** The steps a save keeps: rows with a description, stamped with `now`. */
  function KeptEtapas(rows: seq<EtapaRow>, now: int): (r: seq<Etapa>)
    ensures |r| <= |rows|
    ensures forall i | 0 <= i < |r| :: r[i].descricao != "" && r[i].dataCriacao == now
    ensures forall i | 0 <= i < |rows| && rows[i].descricao != "" ::
      Etapa(rows[i].descricao, rows[i].status, now) in r
  {
    if rows == [] then []
    else
      var init := rows[..|rows| - 1];
      var last := rows[|rows| - 1];
      var prev := KeptEtapas(init, now);
      assert forall i | 0 <= i < |init| :: init[i] == rows[i];
      prev + (if last.descricao != "" then [Etapa(last.descricao, last.status, now)] else [])
  }

  /** The `forEach` over the step rows that pushes each described step. */
  method CollectEtapas(rows: seq<EtapaRow>, now: int) returns (etapas: seq<Etapa>)
    ensures etapas == KeptEtapas(rows, now)
  {
    etapas := [];
    for i := 0 to |rows|
      invariant etapas == KeptEtapas(rows[..i], now)
    {
      assert rows[..i + 1][..i] == rows[..i];
      if rows[i].descricao != "" {
        etapas := etapas + [Etapa(rows[i].descricao, rows[i].status, now)];
      }
    }
    assert rows[..|rows|] == rows;
  }

  function IsConcluida(e: Etapa): bool { e.status == "concluida" }

  /** `Math.round(n / d)` for `n >= 0 < d`: the nearest integer, halves up. */
  function RoundRatio(n: nat, d: nat): (r: nat)
    requires d > 0
    ensures 2 * r * d <= 2 * n + d < 2 * r * d + 2 * d
  {
    var r := (2 * n + d) / (2 * d);
    DivBounds(2 * n + d, 2 * d);
    r
  }

  lemma DivBounds(n: nat, d: nat)
    requires d > 0
    ensures (n / d) * d <= n < (n / d) * d + d
  {
  }

  /** `progresso`: the rounded percentage of finished steps, 0 without steps. */
  function Progresso(etapas: seq<Etapa>): (p: int)
    ensures 0 <= p <= 100
    ensures var t := |etapas|; var c := Records.Count(etapas, IsConcluida);
      t > 0 ==> 2 * p * t <= 200 * c + t < 2 * p * t + 2 * t
    ensures etapas == [] ==> p == 0
  {
    var t := |etapas|;
    var c := Records.Count(etapas, IsConcluida);
    if t > 0 then
      var p := RoundRatio(100 * c, t);
      PercentAtMost100(p, c, t);
      p
    else 0
  }

  lemma PercentAtMost100(p: nat, c: nat, t: nat)
    requires 0 < t && c <= t && 2 * p * t <= 200 * c + t
    ensures p <= 100
  {
    ScaleBelow(p, 101, t);
  }

  /** `a * t < b * t` with `t > 0` gives `a < b`, by contraposition. */
  lemma ScaleBelow(a: int, b: int, t: int)
    requires t > 0
    ensures a >= b ==> 2 * a * t >= 2 * b * t
  {
    if a >= b {
      assert a * t - b * t == (a - b) * t;
    }
  }

  /** Every step finished gives 100%, none finished gives 0%. */
  lemma ProgressoExtremes(etapas: seq<Etapa>)
    requires etapas != []
    ensures Records.Count(etapas, IsConcluida) == |etapas| ==> Progresso(etapas) == 100
    ensures Records.Count(etapas, IsConcluida) == 0 ==> Progresso(etapas) == 0
  {
    var t := |etapas|;
    var c := Records.Count(etapas, IsConcluida);
    var p := Progresso(etapas);
    assert 2 * p * t <= 200 * c + t < 2 * p * t + 2 * t;
    if c == t {
      ScaleBelow(99, p, t);
    }
    if c == 0 {
      ScaleBelow(p, 1, t);
    }
  }

  // ---------------------------------------------------------------- overdue

  /** The flag `saveOS` stores: a completion date, now after it, and a status
      other than finished or cancelled. */
  predicate AtrasadaAoSalvar(dataConclusao: Option<int>, hoje: int, status: string) {
    dataConclusao.Some? && hoje > dataConclusao.value && status != "finalizada" && status != "cancelada"
  }

  /** The filter of the "overdue" counter of the statistics, in its own order. */
  predicate ContaComoAtrasada(os: OrdemServico, hoje: int) {
    if os.status == "finalizada" || os.status == "cancelada" then false
    else if os.dataConclusao.None? then false
    else hoje > os.dataConclusao.value
  }

  // ---------------------------------------------------------------- save

  /** Midnight UTC of a day number (`value + 'T00:00:00Z'`). */
  function DayStart(day: int): int { day * DayMs }

  function DayStartOpt(day: Option<int>): (r: Option<int>)
    ensures r.Some? <==> day.Some?
  {
    if day.Some? then Some(DayStart(day.value)) else None
  }

  /** The order `saveOS` builds at the instant `now` from the collected steps;
      `nowId` is `Date.now()` as text. */
  function BuildOS(form: OSForm, etapas: seq<Etapa>, now: int, nowId: string): (os: OrdemServico)
    ensures os.id == (if form.id != "" then form.id else nowId)
    ensures os.etapas == etapas
    ensures os.progresso == Progresso(os.etapas) && 0 <= os.progresso <= 100
    ensures os.prazo == IntOr(form.prazo, 7) && os.prazo != 0
    ensures os.valor == OrZero(form.valor)
    ensures os.dataConclusao.Some? <==> form.dataConclusao.Some?
    ensures os.atrasada == AtrasadaAoSalvar(os.dataConclusao, now, os.status)
    ensures os.status == form.status && os.dataAtualizacao == now
    ensures os.orcamentoId == (if form.orcamentoId != "" then Some(form.orcamentoId) else None)
  {
    var dataConclusao := DayStartOpt(form.dataConclusao);
    OrdemServico(
      if form.id != "" then form.id else nowId,
      form.numero, DayStart(form.dataAbertura), form.cliente, form.contato,
      form.descricao, form.responsavel, form.prioridade, form.status,
      DayStartOpt(form.dataInicio), IntOr(form.prazo, 7), dataConclusao, OrZero(form.valor),
      form.materiais, etapas, Progresso(etapas),
      if form.orcamentoId != "" then Some(form.orcamentoId) else None,
      form.observacoes, now,
      AtrasadaAoSalvar(dataConclusao, now, form.status))
  }

  /** The flag stored by a save agrees with the statistics' overdue test at that instant. */
  lemma SavedFlagMatchesStatistics(form: OSForm, etapas: seq<Etapa>, now: int, nowId: string)
    ensures var os := BuildOS(form, etapas, now, nowId);
      os.atrasada <==> ContaComoAtrasada(os, now)
  {
  }

  /** The list of service orders of the application state. */
  class OSStore {
    var ordens: seq<OrdemServico>

    constructor(initial: seq<OrdemServico>)
      ensures ordens == initial
    {
      ordens := initial;
    }

    /** `saveOS`: collect the steps, build the order, then replace the one with
        its id or append it. */
    method SaveOS(form: OSForm, now: int, nowId: string)
      modifies this
      ensures ordens == Records.Upsert(old(ordens), OSId, BuildOS(form, KeptEtapas(form.etapas, now), now, nowId))
    {
      var etapas := CollectEtapas(form.etapas, now);
      var os := BuildOS(form, etapas, now, nowId);
      var index := Records.IndexOf(ordens, OSId, os.id);
      if index >= 0 {
        ordens := ordens[index := os];
      } else {
        ordens := ordens + [os];
      }
    }

    /** `deleteOS`: after the confirmation, keep every order with another id. */
    method DeleteOS(id: string, confirmed: bool)
      modifies this
      ensures ordens == if confirmed then Records.Remove(old(ordens), OSId, id) else old(ordens)
    {
      if confirmed {
        ordens := Records.Remove(ordens, OSId, id);
      }
    }

    /** `marcarComoConcluida`: for a known id and a confirmation, finish the
        order, every one of its steps, and set the progress to 100. */
    method MarcarComoConcluida(id: string, confirmed: bool, now: int)
      modifies this
      ensures var i := Records.IndexOf(old(ordens), OSId, id);
        ordens == if i >= 0 && confirmed then old(ordens)[i := Concluida(old(ordens)[i], now)] else old(ordens)
    {
      var index := Records.IndexOf(ordens, OSId, id);
      if index >= 0 && confirmed {
        var os := ordens[index];
        var etapas := os.etapas;
        for k := 0 to |etapas|
          invariant |etapas| == |os.etapas|
          invariant forall j | 0 <= j < k :: etapas[j] == os.etapas[j].(status := "concluida")
          invariant forall j | k <= j < |etapas| :: etapas[j] == os.etapas[j]
        {
          etapas := etapas[k := etapas[k].(status := "concluida")];
        }
        assert etapas == AllConcluidas(os.etapas);
        ordens := ordens[index := os.(status := "finalizada", dataAtualizacao := now, etapas := etapas, progresso := 100)];
      }
    }
  }

  /** Every step of `etapas` with status `concluida`. */
  function AllConcluidas(etapas: seq<Etapa>): (r: seq<Etapa>)
    ensures |r| == |etapas|
    ensures forall j | 0 <= j < |r| ::
      IsConcluida(r[j]) && r[j].descricao == etapas[j].descricao && r[j].dataCriacao == etapas[j].dataCriacao
  {
    seq(|etapas|, j requires 0 <= j < |etapas| => etapas[j].(status := "concluida"))
  }

  /** The order after "mark as finished" at the instant `now`. */
  function Concluida(os: OrdemServico, now: int): OrdemServico {
    os.(status := "finalizada", dataAtualizacao := now, etapas := AllConcluidas(os.etapas), progresso := 100)
  }

  /** A finished order is never counted as overdue, and with steps its stored
      progress is what a save would compute from them. */
  lemma ConcluidaIsSettled(os: OrdemServico, now: int, hoje: int)
    ensures !ContaComoAtrasada(Concluida(os, now), hoje)
    ensures os.etapas != [] ==> Concluida(os, now).progresso == Progresso(Concluida(os, now).etapas)
  {
    var r := Concluida(os, now);
    if os.etapas != [] {
      assert Records.Count(r.etapas, IsConcluida) == |r.etapas| by {
        CountAll(r.etapas);
      }
      ProgressoExtremes(r.etapas);
    }
  }

  lemma {:induction false} CountAll(etapas: seq<Etapa>)
    requires forall j | 0 <= j < |etapas| :: IsConcluida(etapas[j])
    ensures Records.Count(etapas, IsConcluida) == |etapas|
  {
    if etapas != [] {
      CountAll(etapas[1..]);
    }
  }

  // ---------------------------------------------------------------- statistics

  datatype Estatisticas = Estatisticas(abertas: nat, emAndamento: nat, atrasadas: nat, finalizadasMes: nat)

  function IsAberta(os: OrdemServico): bool {
    os.status == "aberta" || os.status == "andamento" || os.status == "aguardando"
  }

  function IsEmAndamento(os: OrdemServico): bool { os.status == "andamento" }

  /** `carregarEstatisticas` at the instant `hoje`; `monthOf` maps an instant to
      its local (year, month) as one number. */
  function CarregarEstatisticas(ordens: seq<OrdemServico>, hoje: int, monthOf: int -> int): (s: Estatisticas)
    ensures s.emAndamento <= s.abertas <= |ordens|
    ensures s.atrasadas <= |ordens| && s.finalizadasMes <= |ordens|
  {
    Records.CountMono(ordens, IsEmAndamento, IsAberta);
    Estatisticas(
      Records.Count(ordens, IsAberta),
      Records.Count(ordens, IsEmAndamento),
      Records.Count(ordens, (os: OrdemServico) => ContaComoAtrasada(os, hoje)),
      Records.Count(ordens, (os: OrdemServico) => os.status == "finalizada" && monthOf(os.dataAtualizacao) == monthOf(hoje)))
  }

  /** Finishing an overdue order takes exactly one off the overdue counter. */
  lemma ConcluirReducesAtrasadas(ordens: seq<OrdemServico>, i: nat, now: int, hoje: int, monthOf: int -> int)
    requires i < |ordens|
    ensures var before := CarregarEstatisticas(ordens, hoje, monthOf).atrasadas;
      var after := CarregarEstatisticas(ordens[i := Concluida(ordens[i], now)], hoje, monthOf).atrasadas;
      after == before - (if ContaComoAtrasada(ordens[i], hoje) then 1 else 0)
  {
    var p := (os: OrdemServico) => ContaComoAtrasada(os, hoje);
    var updated := ordens[i := Concluida(ordens[i], now)];
    ConcluidaIsSettled(ordens[i], now, hoje);
    assert ordens == ordens[..i] + ([ordens[i]] + ordens[i + 1..]);
    assert updated == ordens[..i] + ([Concluida(ordens[i], now)] + ordens[i + 1..]);
    Records.CountConcat(ordens[..i], [ordens[i]] + ordens[i + 1..], p);
    Records.CountConcat([ordens[i]], ordens[i + 1..], p);
    Records.CountConcat(ordens[..i], [Concluida(ordens[i], now)] + ordens[i + 1..], p);
    Records.CountConcat([Concluida(ordens[i], now)], ordens[i + 1..], p);
  }

  // ---------------------------------------------------------------- list order

  /** `pesoPrioridade[p] || 0`. */
  function PesoPrioridade(p: string): (w: int)
    ensures 0 <= w <= 4
    ensures w == 0 <==> p != "urgente" && p != "alta" && p != "media" && p != "baixa"
  {
    if p == "urgente" then 4
    else if p == "alta" then 3
    else if p == "media" then 2
    else if p == "baixa" then 1
    else 0
  }

  /** The comparator of `renderOSList` as "may come before": heavier priority
      first, then the newer opening date. */
  function ComesBefore(a: OrdemServico, b: OrdemServico): bool {
    var wa := PesoPrioridade(a.prioridade);
    var wb := PesoPrioridade(b.prioridade);
    wa > wb || (wa == wb && a.dataAbertura >= b.dataAbertura)
  }

  lemma ComesBeforeIsPreorder()
    ensures Sorting.TotalPreorder(ComesBefore)
  {
  }

  /** The list order: priority weight never rises along the list, and within
      one weight the opening dates never rise. */
  lemma RenderOrder(ordens: seq<OrdemServico>)
    ensures var r := Sorting.Sort(ordens, ComesBefore);
      && multiset(r) == multiset(ordens)
      && forall i, j | 0 <= i < j < |r| ::
           && PesoPrioridade(r[i].prioridade) >= PesoPrioridade(r[j].prioridade)
           && (PesoPrioridade(r[i].prioridade) == PesoPrioridade(r[j].prioridade) ==> r[i].dataAbertura >= r[j].dataAbertura)
  {
    ComesBeforeIsPreorder();
    Sorting.SortSorted(ordens, ComesBefore);
  }

  // ---------------------------------------------------------------- number and dates

  /** `gerarNumeroOS`: `OS` + year + (count + 1) padded to four digits. */
  function GerarNumeroOS(ordens: seq<OrdemServico>, year: nat): string {
    Text.Numbered("OS", year, |ordens| + 1)
  }

  /** The counter in the number is one more than the number of orders. */
  lemma NumeroOSCounter(ordens: seq<OrdemServico>, year: nat)
    ensures var r := GerarNumeroOS(ordens, year);
      var tail := r[2 + |Text.NatToDigits(year)|..];
      r[..2] == "OS" && Text.AllDigits(tail) && Text.DigitsToNat(tail) == |ordens| + 1
  {
    Text.NumberedCounter("OS", year, |ordens| + 1);
  }

  /** `calcularDataConclusao`: the day `prazo` days after the start day, only
      with a start day and a positive `parseInt(prazo) || 0`; `None` leaves the
      completion field as it was. */
  function CalcularDataConclusao(dataInicio: Option<int>, prazo: Option<int>): (r: Option<int>)
    ensures r.Some? <==> dataInicio.Some? && prazo.Some? && prazo.value > 0
    ensures r.Some? ==> r.value > dataInicio.value
  {
    var dias := IntOr(prazo, 0);
    if dataInicio.Some? && dias > 0 then Some(dataInicio.value + dias) else None
  }

  /** When the form fills the completion day, the saved `prazo` (default 7) is
      the distance from the start day to it. */
  lemma ConclusaoMatchesSavedPrazo(dataInicio: Option<int>, prazo: Option<int>)
    requires CalcularDataConclusao(dataInicio, prazo).Some?
    ensures CalcularDataConclusao(dataInicio, prazo).value - dataInicio.value == IntOr(prazo, 7)
  {
  }
}
