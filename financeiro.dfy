/** The financial ledger (modules/financeiro.js): receivable and payable
    accounts, the till ("caixa") with its movements, the forecast balance and
    the boleto attached to a receivable. Instants are milliseconds since the
    epoch; `now` is the ISO text of the current instant and `nowId` is
    `Date.now()` as text. */
module Financeiro {
  import opened Wrappers
  import Text
  import Records
  import Numbers
  import Clientes

  const DayMs: int := 86400000

  /** Which list an operation works on: `tipo === 'receber'`, every other value
      selects the payables. */
  datatype Tipo = Receber | Pagar

  function TipoOf(tipo: string): Tipo {
    if tipo == "receber" then Receber else Pagar
  }

  /** What `emitirBoletoParaConta` attaches to a receivable. */
  datatype BoletoInfo = BoletoInfo(id: string, status: string, linhaDigitavel: string,
                                   pdfUrl: string, provider: string, emitidoEm: string)

  /** An account. `valor` is `parseFloat` of the amount field, `None` when that
      is NaN (an empty or non-numeric field). `vencimento` is the due instant
      (`None` when the date is empty or invalid, so every comparison with it is false). */
  datatype Conta = Conta(
    id: string, descricao: string, categoria: string, valor: Option<real>,
    vencimento: Option<int>, dataPagamento: Option<string>, clienteFornecedor: string,
    status: string, observacoes: string, dataCriacao: string, dataAtualizacao: string,
    boleto: Option<BoletoInfo>)

  /** The account form; `id` is empty for a new account, `dataPagamento` empty when not paid. */
  datatype ContaForm = ContaForm(
    id: string, descricao: string, categoria: string, valor: Option<real>, vencimento: Option<int>,
    dataPagamento: string, clienteFornecedor: string, status: string, observacoes: string)

  /** A till movement; `contaId` is present only on automatic postings, and
      `valor` is `None` when the amount is NaN. */
  datatype Movimentacao = Movimentacao(
    id: string, contaId: Option<string>, tipo: string, categoria: string, valor: Option<real>,
    data: string, descricao: string, formaPagamento: string, observacoes: string,
    automatica: bool)

  /** The movement form of `saveMovimentacao`. */
  datatype MovimentacaoForm = MovimentacaoForm(
    tipo: string, categoria: string, valor: Option<real>, data: string, descricao: string,
    formaPagamento: string, observacoes: string)

  /** A till; `fechamento` is `None` while it is open. The opening balance is
      always a number (`parseFloat(reply) || 0`); the running balance `saldoFinal`
      becomes NaN (`None`) once a movement with a NaN amount is posted. */
  datatype Caixa = Caixa(
    id: string, abertura: string, saldoInicial: real, saldoFinal: Option<real>,
    fechamento: Option<string>, movimentacoes: seq<Movimentacao>)

  function ContaId(c: Conta): string { c.id }

  // ---------------------------------------------------------------- till arithmetic

  /** `saldoFinal += valor` for an `entrada`, `saldoFinal -= valor` for anything
      else; a NaN on either side gives NaN. */
  function Apply(saldo: Option<real>, m: Movimentacao): Option<real> {
    if m.tipo == "entrada" then Numbers.AddNumbers(saldo, m.valor) else Numbers.SubNumbers(saldo, m.valor)
  }

  /** The running balance reached from `saldo` by posting the movements in order. */
  function Run(saldo: Option<real>, movs: seq<Movimentacao>): Option<real> {
    if movs == [] then saldo else Apply(Run(saldo, movs[..|movs| - 1]), movs[|movs| - 1])
  }

  /** `totalEntradas` of the closing report. */
  function Entradas(movs: seq<Movimentacao>): Option<real> {
    if movs == [] then Some(0.0)
    else
      var m := movs[|movs| - 1];
      if m.tipo == "entrada" then Numbers.AddNumbers(Entradas(movs[..|movs| - 1]), m.valor) else Entradas(movs[..|movs| - 1])
  }

  /** `totalSaidas` of the closing report: every movement that is not `entrada`. */
  function Saidas(movs: seq<Movimentacao>): Option<real> {
    if movs == [] then Some(0.0)
    else
      var m := movs[|movs| - 1];
      if m.tipo == "entrada" then Saidas(movs[..|movs| - 1]) else Numbers.AddNumbers(Saidas(movs[..|movs| - 1]), m.valor)
  }

  /** The running balance is the start plus the inflows minus the outflows of
      the closing report, NaN included: both sides are NaN together. */
  lemma {:induction false} RunIsEntradasMinusSaidas(saldo: Option<real>, movs: seq<Movimentacao>)
    ensures Run(saldo, movs) == Numbers.SubNumbers(Numbers.AddNumbers(saldo, Entradas(movs)), Saidas(movs))
  {
    if movs != [] {
      RunIsEntradasMinusSaidas(saldo, movs[..|movs| - 1]);
    }
  }

  /** A running balance that starts as a number is NaN exactly when some
      movement has a NaN amount. */
  lemma {:induction false} RunIsNaN(saldo: real, movs: seq<Movimentacao>)
    ensures Run(Some(saldo), movs).None? <==> exists j | 0 <= j < |movs| :: movs[j].valor.None?
  {
    if movs != [] {
      var init := movs[..|movs| - 1];
      RunIsNaN(saldo, init);
      assert forall j | 0 <= j < |init| :: init[j] == movs[j];
    }
  }

  predicate IsOpen(c: Caixa) { c.fechamento.None? }

  /** `caixa.length > 0 && caixa[caixa.length - 1].fechamento === null`. */
  predicate HasOpen(caixas: seq<Caixa>) {
    caixas != [] && IsOpen(caixas[|caixas| - 1])
  }

  /** The running balance of a till is its opening balance moved by its movements. */
  predicate Balanced(c: Caixa) {
    c.saldoFinal == Run(Some(c.saldoInicial), c.movimentacoes)
  }

  /** The till invariant: only the last till can be open, and an open till is balanced. */
  predicate ValidTills(caixas: seq<Caixa>) {
    && (forall i | 0 <= i < |caixas| - 1 :: !IsOpen(caixas[i]))
    && (HasOpen(caixas) ==> Balanced(caixas[|caixas| - 1]))
  }

  // ---------------------------------------------------------------- till transitions

  /** The till `abrirCaixa` appends for the prompt reply: `parseFloat(reply) || 0`. */
  function NovoCaixa(reply: string, now: string, nowId: string): (c: Caixa)
    ensures IsOpen(c) && c.movimentacoes == [] && c.saldoFinal == Some(c.saldoInicial)
  {
    var saldo := OrZero(Numbers.ParseFloat(reply));
    Caixa(nowId, now, saldo, Some(saldo), None, [])
  }

  /** `abrirCaixa`: refused while the last till is open or when the prompt is cancelled. */
  function Abrir(caixas: seq<Caixa>, reply: Option<string>, now: string, nowId: string): seq<Caixa> {
    if HasOpen(caixas) || reply.None? then caixas else caixas + [NovoCaixa(reply.value, now, nowId)]
  }

  /** `fecharCaixa`: refused without an open till or when the prompt is cancelled;
      otherwise the counted balance overwrites the running one and the till closes. */
  function Fechar(caixas: seq<Caixa>, reply: Option<string>, now: string): seq<Caixa> {
    if !HasOpen(caixas) || reply.None? then caixas
    else
      var last := caixas[|caixas| - 1];
      caixas[|caixas| - 1 := last.(saldoFinal := Some(OrZero(Numbers.ParseFloat(reply.value))), fechamento := Some(now))]
  }

  /** Appends a movement to the open till and moves its running balance. */
  function Post(caixas: seq<Caixa>, m: Movimentacao): (r: seq<Caixa>)
    requires HasOpen(caixas)
    ensures |r| == |caixas| && HasOpen(r)
    ensures r[..|r| - 1] == caixas[..|caixas| - 1]
  {
    var last := caixas[|caixas| - 1];
    caixas[|caixas| - 1 := last.(saldoFinal := Apply(last.saldoFinal, m), movimentacoes := last.movimentacoes + [m])]
  }

  lemma AbrirKeepsValid(caixas: seq<Caixa>, reply: Option<string>, now: string, nowId: string)
    requires ValidTills(caixas)
    ensures ValidTills(Abrir(caixas, reply, now, nowId))
    ensures reply.Some? && !HasOpen(caixas) ==> HasOpen(Abrir(caixas, reply, now, nowId))
  {
  }

  lemma FecharKeepsValid(caixas: seq<Caixa>, reply: Option<string>, now: string)
    requires ValidTills(caixas)
    ensures ValidTills(Fechar(caixas, reply, now))
    ensures reply.Some? ==> !HasOpen(Fechar(caixas, reply, now))
  {
  }

  /** Posting keeps the open till balanced: the running balance moves by exactly
      the movement's signed amount. */
  lemma PostKeepsValid(caixas: seq<Caixa>, m: Movimentacao)
    requires HasOpen(caixas) && ValidTills(caixas)
    ensures ValidTills(Post(caixas, m))
  {
    var movs := caixas[|caixas| - 1].movimentacoes;
    assert (movs + [m])[..|movs + [m]| - 1] == movs;
  }

  // ---------------------------------------------------------------- closing report

  /** `diferenca` of the closing report. */
  function Diferenca(c: Caixa): Option<real> {
    Numbers.SubNumbers(c.saldoFinal,
      Numbers.SubNumbers(Numbers.AddNumbers(Some(c.saldoInicial), Entradas(c.movimentacoes)), Saidas(c.movimentacoes)))
  }

  /** The totals loop of `gerarRelatorioFechamento`: the difference compares the
      stored balance with the balance the movements give. */
  method GerarRelatorioFechamento(c: Caixa) returns (totalEntradas: Option<real>, totalSaidas: Option<real>, diferenca: Option<real>)
    ensures totalEntradas == Entradas(c.movimentacoes) && totalSaidas == Saidas(c.movimentacoes)
    ensures diferenca == Numbers.SubNumbers(c.saldoFinal, Run(Some(c.saldoInicial), c.movimentacoes))
  {
    var movs := c.movimentacoes;
    totalEntradas, totalSaidas := Some(0.0), Some(0.0);
    for i := 0 to |movs|
      invariant totalEntradas == Entradas(movs[..i]) && totalSaidas == Saidas(movs[..i])
    {
      assert movs[..i + 1][..i] == movs[..i];
      if movs[i].tipo == "entrada" {
        totalEntradas := Numbers.AddNumbers(totalEntradas, movs[i].valor);
      } else {
        totalSaidas := Numbers.AddNumbers(totalSaidas, movs[i].valor);
      }
    }
    assert movs[..|movs|] == movs;
    RunIsEntradasMinusSaidas(Some(c.saldoInicial), movs);
    diferenca := Numbers.SubNumbers(c.saldoFinal,
      Numbers.SubNumbers(Numbers.AddNumbers(Some(c.saldoInicial), totalEntradas), totalSaidas));
  }

  /** Closing a balanced till, the report's difference is the counted balance
      minus the running balance; counting exactly the running balance shows 0. */
  lemma ClosingDifference(caixas: seq<Caixa>, reply: string, now: string)
    requires ValidTills(caixas) && HasOpen(caixas)
    ensures var closed := Fechar(caixas, Some(reply), now)[|caixas| - 1];
      Diferenca(closed) == Numbers.SubNumbers(Some(OrZero(Numbers.ParseFloat(reply))), caixas[|caixas| - 1].saldoFinal)
  {
    var last := caixas[|caixas| - 1];
    RunIsEntradasMinusSaidas(Some(last.saldoInicial), last.movimentacoes);
  }

  // ---------------------------------------------------------------- accounts

  /** The status rule of `saveConta`: a payment date forces `pago`; otherwise a
      `pendente` account due before `hoje` becomes `atrasado`; any other choice is kept. */
  function StatusAoSalvar(escolhido: string, dataPagamento: Option<string>, vencimento: Option<int>, hoje: int): (r: string)
    ensures r == "pago" <==> dataPagamento.Some? || escolhido == "pago"
    ensures r == "atrasado" <==>
      dataPagamento.None? &&
      (escolhido == "atrasado" || (escolhido == "pendente" && vencimento.Some? && vencimento.value < hoje))
    ensures r != escolhido ==> dataPagamento.Some? || escolhido == "pendente"
  {
    if dataPagamento.Some? then "pago"
    else if vencimento.Some? && vencimento.value < hoje && escolhido == "pendente" then "atrasado"
    else escolhido
  }

  /** `getContaDataCriacao`: the creation time of the stored account, else `now`. */
  function DataCriacao(contas: seq<Conta>, id: string, now: string): string {
    var i := Records.IndexOf(contas, ContaId, id);
    if i >= 0 then contas[i].dataCriacao else now
  }

  /** The account `saveConta` builds from the form, at the instant `hoje`. */
  function BuildConta(form: ContaForm, contas: seq<Conta>, hoje: int, now: string, nowId: string): (c: Conta)
    ensures c.id == (if form.id != "" then form.id else nowId)
    ensures c.dataPagamento == (if form.dataPagamento != "" then Some(form.dataPagamento) else None)
    ensures c.status == StatusAoSalvar(form.status, c.dataPagamento, form.vencimento, hoje)
    ensures c.boleto.None? && c.valor == form.valor && c.dataAtualizacao == now
  {
    var pagamento := if form.dataPagamento != "" then Some(form.dataPagamento) else None;
    Conta(
      if form.id != "" then form.id else nowId,
      form.descricao, form.categoria, form.valor, form.vencimento, pagamento,
      form.clienteFornecedor, StatusAoSalvar(form.status, pagamento, form.vencimento, hoje),
      form.observacoes,
      if form.id != "" then DataCriacao(contas, form.id, now) else now,
      now, None)
  }

  /** The movement `registrarMovimentacaoCaixa` posts for a paid account. */
  function AutoMov(tipo: Tipo, conta: Conta, nowId: string): (m: Movimentacao)
    ensures m.contaId == Some(conta.id) && m.valor == conta.valor && m.automatica
    ensures m.tipo == (if tipo == Receber then "entrada" else "saida")
  {
    Movimentacao(
      nowId, Some(conta.id), if tipo == Receber then "entrada" else "saida",
      conta.categoria, conta.valor, conta.dataPagamento.GetOr(""),
      (if tipo == Receber then "Recebimento" else "Pagamento") + ": " + conta.descricao,
      "n\U{E3}o informado",
      "Conta de " + (if tipo == Receber then "receber" else "pagar") + " - " + conta.clienteFornecedor,
      true)
  }

  /** `caixaAtual.movimentacoes.some(mov => mov.contaId === id)`. */
  predicate AlreadyPosted(movs: seq<Movimentacao>, id: string) {
    exists j | 0 <= j < |movs| :: movs[j].contaId == Some(id)
  }

  /** An automatic posting happens only into an open till that holds no
      movement of that account yet; closed tills are not looked at. */
  predicate CanPost(caixas: seq<Caixa>, id: string) {
    HasOpen(caixas) && !AlreadyPosted(caixas[|caixas| - 1].movimentacoes, id)
  }

  /** After one automatic posting of an account, the same account cannot post
      again into that till. */
  lemma AutoPostOnce(caixas: seq<Caixa>, tipo: Tipo, conta: Conta, nowId: string, tipo2: Tipo, conta2: Conta)
    requires CanPost(caixas, conta.id) && conta2.id == conta.id
    ensures !CanPost(Post(caixas, AutoMov(tipo, conta, nowId)), conta2.id)
  {
    var movs := Post(caixas, AutoMov(tipo, conta, nowId))[|caixas| - 1].movimentacoes;
    assert movs[|movs| - 1].contaId == Some(conta.id);
  }

  // ---------------------------------------------------------------- forecast

  /** An account that the forecast counts: unpaid and due by `fim`. */
  predicate DueBy(c: Conta, fim: int) {
    c.status != "pago" && c.vencimento.Some? && c.vencimento.value <= fim
  }

  /** The forecast's running sum over the accounts due by `fim`; a NaN amount
      makes it NaN. */
  function SumDue(contas: seq<Conta>, fim: int): Option<real> {
    if contas == [] then Some(0.0)
    else
      var c := contas[|contas| - 1];
      if DueBy(c, fim) then Numbers.AddNumbers(SumDue(contas[..|contas| - 1], fim), c.valor)
      else SumDue(contas[..|contas| - 1], fim)
  }

  /** The forecast is NaN exactly when some account it counts has a NaN amount. */
  lemma {:induction false} SumDueIsNaN(contas: seq<Conta>, fim: int)
    ensures SumDue(contas, fim).None? <==> exists j | 0 <= j < |contas| :: DueBy(contas[j], fim) && contas[j].valor.None?
  {
    if contas != [] {
      var init := contas[..|contas| - 1];
      SumDueIsNaN(init, fim);
      assert forall j | 0 <= j < |init| :: init[j] == contas[j];
    }
  }

  /** With non-negative amounts, a longer horizon never forecasts less; when
      the longer forecast is a number, so is the shorter one. */
  lemma {:induction false} SumDueGrowsWithHorizon(contas: seq<Conta>, fim1: int, fim2: int)
    requires fim1 <= fim2
    requires forall i | 0 <= i < |contas| :: OrZero(contas[i].valor) >= 0.0
    ensures SumDue(contas, fim2).Some? ==> SumDue(contas, fim1).Some? && SumDue(contas, fim1).value <= SumDue(contas, fim2).value
  {
    if contas != [] {
      SumDueGrowsWithHorizon(contas[..|contas| - 1], fim1, fim2);
      assert OrZero(contas[|contas| - 1].valor) >= 0.0;
    }
  }

  /** Marking one account as paid takes exactly its own amount out of the
      forecast: adding that amount back gives the old forecast, NaN included. */
  lemma {:induction false} SumDueAfterPaying(contas: seq<Conta>, i: nat, fim: int)
    requires i < |contas|
    ensures Numbers.AddNumbers(SumDue(contas[i := contas[i].(status := "pago")], fim),
                               if DueBy(contas[i], fim) then contas[i].valor else Some(0.0))
         == SumDue(contas, fim)
  {
    var n := |contas| - 1;
    var paid := contas[i := contas[i].(status := "pago")];
    assert paid[..n] == if i < n then contas[..n][i := contas[i].(status := "pago")] else contas[..n];
    if i < n {
      SumDueAfterPaying(contas[..n], i, fim);
    }
  }

  // ---------------------------------------------------------------- boleto request

  datatype Pagador = Pagador(nome: string, documento: string, email: string, telefone: string,
                             endereco: Clientes.Endereco)

  datatype BoletoRequest = BoletoRequest(valor: Option<real>, vencimento: Option<int>, pagador: Pagador,
                                         instrucoes: string, referencia: string)

  /** What the boleto service answers on success. */
  datatype BoletoResposta = BoletoResposta(id: string, status: string, linhaDigitavel: string,
                                           pdfUrl: string, provider: string, createdAt: string)

  datatype EmissaoOutcome = ClienteSemDocumento | FalhaServico | Emitido(info: BoletoInfo)

  /** `_findClienteByName`: the first client whose lower-cased name equals the lower-cased name. */
  function FindClienteByName(clientes: seq<Clientes.Cliente>, nome: string): (r: Option<Clientes.Cliente>)
    ensures r.Some? ==> r.value in clientes && Text.Lower(r.value.nome) == Text.Lower(nome)
    ensures r.None? ==> forall i | 0 <= i < |clientes| :: Text.Lower(clientes[i].nome) != Text.Lower(nome)
  {
    var i := Records.FirstIndex(clientes, (c: Clientes.Cliente) => Text.Lower(c.nome) == Text.Lower(nome));
    if i >= 0 then Some(clientes[i]) else None
  }

  function Referencia(conta: Conta): (r: string)
    ensures |r| >= 4 && r[..4] == "FIN-"
  {
    if conta.descricao != "" then "FIN-" + conta.descricao else "FIN-" + conta.id
  }

  /** The request sent for a receivable and its client: the document as digits only. */
  function BoletoRequestFor(conta: Conta, cliente: Clientes.Cliente): (req: BoletoRequest)
    ensures Text.AllDigits(req.pagador.documento) && req.pagador.nome == cliente.nome
    ensures req.valor == conta.valor && req.vencimento == conta.vencimento && req.referencia == Referencia(conta)
  {
    var contato := cliente.contato;
    var telefone := if contato.telefone != "" then contato.telefone else contato.celular;
    BoletoRequest(
      conta.valor, conta.vencimento,
      Pagador(cliente.nome, Text.DigitsOnly(cliente.documento), contato.email, telefone, cliente.endereco),
      "N\U{E3}o receber ap\U{F3}s 30 dias. Juros 1% a.m.",
      Referencia(conta))
  }

  function ToInfo(b: BoletoResposta): BoletoInfo {
    BoletoInfo(b.id, b.status, b.linhaDigitavel, b.pdfUrl, b.provider, b.createdAt)
  }

  // ---------------------------------------------------------------- the ledger

  /** `IzakGestao.data.financeiro`. */
  class Ledger {
    var contasReceber: seq<Conta>
    var contasPagar: seq<Conta>
    var caixa: seq<Caixa>

    /** The empty ledger of `loadData`. */
    constructor()
      ensures contasReceber == [] && contasPagar == [] && caixa == []
      ensures ValidTills(caixa)
    {
      contasReceber, contasPagar, caixa := [], [], [];
    }

    function Contas(tipo: Tipo): seq<Conta>
      reads this
    {
      if tipo == Receber then contasReceber else contasPagar
    }

    method AbrirCaixa(reply: Option<string>, now: string, nowId: string) returns (ok: bool)
      modifies this
      ensures ok <==> !HasOpen(old(caixa)) && reply.Some?
      ensures caixa == Abrir(old(caixa), reply, now, nowId)
      ensures ValidTills(old(caixa)) ==> ValidTills(caixa)
      ensures contasReceber == old(contasReceber) && contasPagar == old(contasPagar)
    {
      if caixa != [] && caixa[|caixa| - 1].fechamento.None? {
        return false;
      }
      if reply.None? {
        return false;
      }
      if ValidTills(caixa) { AbrirKeepsValid(caixa, reply, now, nowId); }
      var saldo := OrZero(Numbers.ParseFloat(reply.value));
      caixa := caixa + [Caixa(nowId, now, saldo, Some(saldo), None, [])];
      return true;
    }

    method FecharCaixa(reply: Option<string>, now: string) returns (closed: bool)
      modifies this
      ensures closed <==> HasOpen(old(caixa)) && reply.Some?
      ensures caixa == Fechar(old(caixa), reply, now)
      ensures ValidTills(old(caixa)) ==> ValidTills(caixa)
      ensures contasReceber == old(contasReceber) && contasPagar == old(contasPagar)
    {
      if caixa == [] || caixa[|caixa| - 1].fechamento.Some? {
        return false;
      }
      if reply.None? {
        return false;
      }
      if ValidTills(caixa) { FecharKeepsValid(caixa, reply, now); }
      var ultimo := caixa[|caixa| - 1];
      caixa := caixa[|caixa| - 1 := ultimo.(saldoFinal := Some(OrZero(Numbers.ParseFloat(reply.value))), fechamento := Some(now))];
      return true;
    }

    /** `saveMovimentacao`: a manual movement into the open till, refused without one. */
    method SaveMovimentacao(form: MovimentacaoForm, nowId: string) returns (posted: bool)
      modifies this
      ensures posted <==> HasOpen(old(caixa))
      ensures caixa == if posted then Post(old(caixa), ManualMov(form, nowId)) else old(caixa)
      ensures ValidTills(old(caixa)) ==> ValidTills(caixa)
      ensures contasReceber == old(contasReceber) && contasPagar == old(contasPagar)
    {
      if caixa == [] || caixa[|caixa| - 1].fechamento.Some? {
        return false;
      }
      var m := ManualMov(form, nowId);
      if ValidTills(caixa) { PostKeepsValid(caixa, m); }
      caixa := Post(caixa, m);
      return true;
    }

    /** `registrarMovimentacaoCaixa`: the automatic posting of a paid account. */
    method RegistrarMovimentacaoCaixa(tipo: Tipo, conta: Conta, nowId: string) returns (posted: bool)
      modifies this
      ensures posted <==> CanPost(old(caixa), conta.id)
      ensures caixa == if posted then Post(old(caixa), AutoMov(tipo, conta, nowId)) else old(caixa)
      ensures ValidTills(old(caixa)) ==> ValidTills(caixa)
      ensures contasReceber == old(contasReceber) && contasPagar == old(contasPagar)
    {
      if caixa == [] || caixa[|caixa| - 1].fechamento.Some? {
        return false;
      }
      var ultimo := caixa[|caixa| - 1];
      if AlreadyPosted(ultimo.movimentacoes, conta.id) {
        return false;
      }
      var m := AutoMov(tipo, conta, nowId);
      if ValidTills(caixa) { PostKeepsValid(caixa, m); }
      caixa := Post(caixa, m);
      return true;
    }

    /** `saveConta`: upsert the built account into its list; an account saved
        with a payment date is then posted to the open till. */
    method SaveConta(tipo: Tipo, form: ContaForm, hoje: int, now: string, nowId: string)
      modifies this
      ensures var conta := BuildConta(form, old(Contas(tipo)), hoje, now, nowId);
        && Contas(tipo) == Records.Upsert(old(Contas(tipo)), ContaId, conta)
        && caixa == (if conta.dataPagamento.Some? && CanPost(old(caixa), conta.id)
                     then Post(old(caixa), AutoMov(tipo, conta, nowId)) else old(caixa))
      ensures tipo == Receber ==> contasPagar == old(contasPagar)
      ensures tipo == Pagar ==> contasReceber == old(contasReceber)
      ensures ValidTills(old(caixa)) ==> ValidTills(caixa)
    {
      var conta := BuildConta(form, Contas(tipo), hoje, now, nowId);
      if tipo == Receber {
        contasReceber := Records.Upsert(contasReceber, ContaId, conta);
      } else {
        contasPagar := Records.Upsert(contasPagar, ContaId, conta);
      }
      if conta.status == "pago" && conta.dataPagamento.Some? {
        var _ := RegistrarMovimentacaoCaixa(tipo, conta, nowId);
      }
    }

    /** `deleteConta`: filter the chosen list only; tills and boletos are not touched. */
    method DeleteConta(id: string, tipo: Tipo)
      modifies this
      ensures Contas(tipo) == Records.Remove(old(Contas(tipo)), ContaId, id)
      ensures tipo == Receber ==> contasPagar == old(contasPagar)
      ensures tipo == Pagar ==> contasReceber == old(contasReceber)
      ensures caixa == old(caixa)
    {
      if tipo == Receber {
        contasReceber := Records.Remove(contasReceber, ContaId, id);
      } else {
        contasPagar := Records.Remove(contasPagar, ContaId, id);
      }
    }

    /** `calcularSaldoPrevisto(dias)` at the instant `hoje`: unpaid receivables
        due by `hoje + dias` days minus unpaid payables due by then; NaN when
        one of them has a NaN amount. */
    method CalcularSaldoPrevisto(dias: int, hoje: int) returns (saldo: Option<real>)
      ensures saldo == Numbers.SubNumbers(SumDue(contasReceber, hoje + dias * DayMs), SumDue(contasPagar, hoje + dias * DayMs))
    {
      var dataFim := hoje + dias * DayMs;
      saldo := Some(0.0);
      var receber := contasReceber;
      for i := 0 to |receber|
        invariant saldo == SumDue(receber[..i], dataFim)
      {
        assert receber[..i + 1][..i] == receber[..i];
        var cr := receber[i];
        if cr.status != "pago" && cr.vencimento.Some? && cr.vencimento.value <= dataFim {
          saldo := Numbers.AddNumbers(saldo, cr.valor);
        }
      }
      assert receber[..|receber|] == receber;
      var pagar := contasPagar;
      for i := 0 to |pagar|
        invariant saldo == Numbers.SubNumbers(SumDue(receber, dataFim), SumDue(pagar[..i], dataFim))
      {
        assert pagar[..i + 1][..i] == pagar[..i];
        var cp := pagar[i];
        if cp.status != "pago" && cp.vencimento.Some? && cp.vencimento.value <= dataFim {
          saldo := Numbers.SubNumbers(saldo, cp.valor);
        }
      }
      assert pagar[..|pagar|] == pagar;
    }

    /** `emitirBoletoParaConta`: `emitir` stands for the boleto service, `None`
        for a failed call. Without a client by that name or without its document
        the call throws and changes nothing; on success the boleto is attached
        to the receivable with that id, if it is in the list. */
    method EmitirBoletoParaConta(conta: Conta, clientes: seq<Clientes.Cliente>,
                                 emitir: BoletoRequest -> Option<BoletoResposta>)
      returns (outcome: EmissaoOutcome)
      modifies this
      ensures var cliente := FindClienteByName(clientes, conta.clienteFornecedor);
        && (outcome == ClienteSemDocumento <==> cliente.None? || cliente.value.documento == "")
        && (cliente.Some? && cliente.value.documento != "" ==>
              var resposta := emitir(BoletoRequestFor(conta, cliente.value));
              && (outcome.Emitido? <==> resposta.Some?)
              && (outcome.Emitido? ==> outcome.info == ToInfo(resposta.value)))
      ensures !outcome.Emitido? ==> contasReceber == old(contasReceber)
      ensures outcome.Emitido? ==>
        contasReceber == Records.Replace(old(contasReceber), ContaId, conta.(boleto := Some(outcome.info)))
      ensures contasPagar == old(contasPagar) && caixa == old(caixa)
    {
      var cliente := FindClienteByName(clientes, conta.clienteFornecedor);
      if cliente.None? || cliente.value.documento == "" {
        return ClienteSemDocumento;
      }
      var resposta := emitir(BoletoRequestFor(conta, cliente.value));
      if resposta.None? {
        return FalhaServico;
      }
      var info := ToInfo(resposta.value);
      var comBoleto := conta.(boleto := Some(info));
      var idx := Records.IndexOf(contasReceber, ContaId, conta.id);
      if idx >= 0 {
        contasReceber := contasReceber[idx := comBoleto];
      }
      return Emitido(info);
    }
  }

  /** The movement `saveMovimentacao` builds from its form (no account, not automatic). */
  function ManualMov(form: MovimentacaoForm, nowId: string): (m: Movimentacao)
    ensures m.contaId.None? && !m.automatica && m.valor == form.valor && m.tipo == form.tipo
  {
    Movimentacao(nowId, None, form.tipo, form.categoria, form.valor, form.data, form.descricao,
                 form.formaPagamento, form.observacoes, false)
  }

  /** A manual movement never blocks an automatic one. */
  lemma ManualMovDoesNotBlock(caixas: seq<Caixa>, form: MovimentacaoForm, nowId: string, id: string)
    requires CanPost(caixas, id)
    ensures CanPost(Post(caixas, ManualMov(form, nowId)), id)
  {
    var before := caixas[|caixas| - 1].movimentacoes;
    var after := Post(caixas, ManualMov(form, nowId))[|caixas| - 1].movimentacoes;
    assert after == before + [ManualMov(form, nowId)];
    forall j | 0 <= j < |after| ensures after[j].contaId != Some(id) {
      if j < |before| {
        assert after[j] == before[j];
      }
    }
  }
}
