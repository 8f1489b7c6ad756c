/** The HTTP server (server/server.js): the in-memory boleto store with its
    issue, query, cancel and webhook handlers, the PagBank payload, and the
    in-memory user map of the register and login handlers. The provider, the
    random generators, the clock and SHA-256 are parameters. */
module Server {
  import opened Wrappers
  import Text
  import Records
  import Numbers

  // ---------------------------------------------------------------- values

  /** A JSON value as the handlers see it; `VUndefined` is a missing key. */
  datatype Val = VUndefined | VNull | VNum(n: real) | VStr(s: string) | VPagador(p: PagadorBody)

  /** JavaScript truthiness (objects are truthy). */
  predicate Truthy(v: Val) {
    match v
    case VUndefined => false
    case VNull => false
    case VNum(n) => n != 0.0
    case VStr(s) => s != ""
    case VPagador(_) => true
  }

  /** `pagador.endereco` of a request; an empty string is a missing field. */
  datatype EnderecoBody = EnderecoBody(uf: string, cidade: string, cep: string,
                                       logradouro: string, numero: string, bairro: string)

  datatype PagadorBody = PagadorBody(nome: string, documento: string, email: string,
                                     endereco: Option<EnderecoBody>)

  /** The body of `POST /api/boletos`; an empty string is a missing field. */
  datatype IssueBody = IssueBody(valor: Val, vencimento: Val, pagador: Option<PagadorBody>,
                                 instrucoes: string, referencia: string, nossoNumero: string)

  /** A stored boleto: a JavaScript object, key by key. */
  type Record = map<string, Val>

  /** `rec.status` (undefined when absent). */
  function StatusOf(rec: Record): Val {
    if "status" in rec then rec["status"] else VUndefined
  }

  function IdOf(rec: Record): Val {
    if "id" in rec then rec["id"] else VUndefined
  }

  /** `a || b` on strings. */
  function Or(a: string, b: string): (r: string)
    ensures r == a || r == b
    ensures r == "" ==> a == "" && b == ""
  {
    if a != "" then a else b
  }

  datatype Response = Ok(code: nat, rec: Record) | Fail(code: nat, error: string)

  // ---------------------------------------------------------------- mock line

  /** The layout of a digitable line: eight digit groups and their separators. */
  function Linha(g1: string, g2: string, g3: string, g4: string, g5: string, g6: string, g7: string, g8: string): string {
    g1 + ("." + (g2 + (" " + (g3 + ("." + (g4 + (" " + (g5 + ("." + (g6 + (" " + (g7 + (" " + g8)))))))))))))
  }

  /** `makeLinhaDigitavel` for the 47 random digits `d`: the groups 5.5 5.6 5.6 1 14. */
  function MakeLinhaDigitavel(d: string): (r: string)
    requires |d| == 47 && Text.AllDigits(d)
    ensures |r| == 54
  {
    Linha(d[..5], d[5..10], d[10..15], d[15..21], d[21..26], d[26..32], d[32..33], d[33..])
  }

  /** Dropping one separator in front of a block of digits. */
  lemma DigitsThroughSeparator(a: string, sep: char, rest: string)
    requires Text.AllDigits(a) && !Text.IsDigit(sep)
    ensures Text.DigitsOnly(a + ([sep] + rest)) == a + Text.DigitsOnly(rest)
  {
    Text.DigitsOnlyConcat(a, [sep] + rest);
    Text.DigitsOnlyKeepsDigits(a);
    assert ([sep] + rest)[1..] == rest;
  }

  /** Filtering a laid-out line gives back its groups, joined. */
  lemma LinhaDigits(g1: string, g2: string, g3: string, g4: string, g5: string, g6: string, g7: string, g8: string)
    requires Text.AllDigits(g1) && Text.AllDigits(g2) && Text.AllDigits(g3) && Text.AllDigits(g4)
    requires Text.AllDigits(g5) && Text.AllDigits(g6) && Text.AllDigits(g7) && Text.AllDigits(g8)
    ensures Text.DigitsOnly(Linha(g1, g2, g3, g4, g5, g6, g7, g8))
         == g1 + (g2 + (g3 + (g4 + (g5 + (g6 + (g7 + g8))))))
  {
    Text.DigitsOnlyKeepsDigits(g8);
    var s7 := " " + g8;
    DigitsThroughSeparator(g7, ' ', g8);
    var s6 := " " + (g7 + s7);
    DigitsThroughSeparator(g6, ' ', g7 + s7);
    var s5 := "." + (g6 + s6);
    DigitsThroughSeparator(g5, '.', g6 + s6);
    var s4 := " " + (g5 + s5);
    DigitsThroughSeparator(g4, ' ', g5 + s5);
    var s3 := "." + (g4 + s4);
    DigitsThroughSeparator(g3, '.', g4 + s4);
    var s2 := " " + (g3 + s3);
    DigitsThroughSeparator(g2, ' ', g3 + s3);
    DigitsThroughSeparator(g1, '.', g2 + s2);
  }

  /** The mock barcode (`linhaDigitavel.replace(/\D/g, '')`) is exactly the 47 digits. */
  lemma BarcodeOfLinha(d: string)
    requires |d| == 47 && Text.AllDigits(d)
    ensures Text.DigitsOnly(MakeLinhaDigitavel(d)) == d
  {
    SlicesAreDigits(d);
    LinhaDigits(d[..5], d[5..10], d[10..15], d[15..21], d[21..26], d[26..32], d[32..33], d[33..]);
    JoinSlices(d);
  }

  lemma SlicesAreDigits(d: string)
    requires |d| == 47 && Text.AllDigits(d)
    ensures Text.AllDigits(d[..5]) && Text.AllDigits(d[5..10]) && Text.AllDigits(d[10..15]) && Text.AllDigits(d[15..21])
    ensures Text.AllDigits(d[21..26]) && Text.AllDigits(d[26..32]) && Text.AllDigits(d[32..33]) && Text.AllDigits(d[33..])
  {
  }

  lemma JoinSlices(d: string)
    requires |d| == 47
    ensures d == d[..5] + (d[5..10] + (d[10..15] + (d[15..21] + (d[21..26] + (d[26..32] + (d[32..33] + d[33..]))))))
  {
    assert d[32..] == d[32..33] + d[33..];
    assert d[26..] == d[26..32] + d[32..];
    assert d[21..] == d[21..26] + d[26..];
    assert d[15..] == d[15..21] + d[21..];
    assert d[10..] == d[10..15] + d[15..];
    assert d[5..] == d[5..10] + d[10..];
    assert d == d[..5] + d[5..];
  }

  // ---------------------------------------------------------------- PagBank payload

  /** The fallback address read from the environment at start-up. */
  datatype Fallback = Fallback(street: string, number: string, locality: string,
                               city: string, region: string, postal: string)

  /** `fallbackAddress`: each variable, else its default; the CEP as digits only. */
  function FallbackFromEnv(env: map<string, string>): (f: Fallback)
    ensures Text.AllDigits(f.postal)
    ensures f.street != "" && f.number != "" && f.locality != "" && f.city != "" && f.region != ""
  {
    var get := (k: string, d: string) => if k in env && env[k] != "" then env[k] else d;
    Fallback(get("PAGADOR_STREET", "Av. Paulista"), get("PAGADOR_NUMBER", "1000"),
             get("PAGADOR_DISTRICT", "Centro"), get("PAGADOR_CITY", "Sao Paulo"),
             get("PAGADOR_UF", "SP"), Text.DigitsOnly(get("PAGADOR_CEP", "01000000")))
  }

  datatype Address = Address(country: string, regionCode: string, city: string, postalCode: string,
                             street: string, number: string, locality: string)

  datatype Payload = Payload(
    referenceId: string, description: string, amountValue: Option<int>, currency: string,
    dueDate: Val, line1: string, line2: string, holderName: string, taxId: string,
    email: Option<string>, address: Address)

  /** `Number(valor || 0)`; `None` is NaN. */
  function NumberOfVal(v: Val): Option<real> {
    if !Truthy(v) then Some(0.0)
    else match v
      case VNum(n) => Some(n)
      case VStr(s) => Numbers.NumberOf(s)
      case _ => None
  }

  /** `Math.round(x * 100)`: the nearest cent count, halves rounded up. */
  function RoundToCents(x: real): (c: int)
    ensures -0.5 < c as real - 100.0 * x <= 0.5
  {
    (100.0 * x + 0.5).Floor
  }

  /** `Math.round(Number(valor || 0) * 100)`; `None` is NaN. */
  function AmountInCents(v: Val): (c: Option<int>)
    ensures c.Some? <==> NumberOfVal(v).Some?
    ensures c.Some? ==> -0.5 < c.value as real - 100.0 * NumberOfVal(v).value <= 0.5
  {
    var n := NumberOfVal(v);
    if n.Some? then Some(RoundToCents(n.value)) else None
  }

  /** `(instrucoes || '').slice(0, 100)`. */
  function Line1(instrucoes: string): (r: string)
    ensures |r| <= 100 && |r| <= |instrucoes| && r == instrucoes[..|r|]
    ensures |instrucoes| <= 100 ==> r == instrucoes
  {
    if |instrucoes| <= 100 then instrucoes else instrucoes[..100]
  }

  /** The holder address: each field of the payer's address, else the fallback. */
  function HolderAddress(e: EnderecoBody, fb: Fallback): (a: Address)
    ensures Text.AllDigits(a.postalCode)
    ensures a.regionCode == Or(e.uf, fb.region) && a.city == Or(e.cidade, fb.city)
    ensures a.street == Or(e.logradouro, fb.street) && a.number == Or(e.numero, fb.number)
    ensures a.locality == Or(e.bairro, fb.locality)
  {
    Address("BRA", Or(e.uf, fb.region), Or(e.cidade, fb.city), Text.DigitsOnly(Or(e.cep, fb.postal)),
            Or(e.logradouro, fb.street), Or(e.numero, fb.number), Or(e.bairro, fb.locality))
  }

  /** `buildPagBankPayload`; `None` when `valor`, `vencimento` or `pagador` is
      missing. `genId` is the id drawn when neither reference is given. */
  function BuildPagBankPayload(body: IssueBody, genId: string, fb: Fallback): (p: Option<Payload>)
    ensures p.None? <==> !Truthy(body.valor) || !Truthy(body.vencimento) || body.pagador.None?
    ensures p.Some? ==>
      && Text.AllDigits(p.value.taxId) && Text.AllDigits(p.value.address.postalCode)
      && p.value.line1 == Line1(body.instrucoes)
      && p.value.amountValue == AmountInCents(body.valor)
      && p.value.referenceId == Or(body.referencia, Or(body.nossoNumero, genId))
  {
    if !Truthy(body.valor) || !Truthy(body.vencimento) || body.pagador.None? then None
    else
      var pg := body.pagador.value;
      var e := pg.endereco.GetOr(EnderecoBody("", "", "", "", "", ""));
      Some(Payload(
        Or(body.referencia, Or(body.nossoNumero, genId)), "Boleto Izak",
        AmountInCents(body.valor), "BRL", body.vencimento, Line1(body.instrucoes), "",
        pg.nome, Text.DigitsOnly(pg.documento),
        if pg.email != "" then Some(pg.email) else None,
        HolderAddress(e, fb)))
  }

  /** Every address field of the payload is filled: the payer's value or the fallback. */
  lemma PayloadAddressFilled(body: IssueBody, genId: string, env: map<string, string>)
    requires BuildPagBankPayload(body, genId, FallbackFromEnv(env)).Some?
    ensures var a := BuildPagBankPayload(body, genId, FallbackFromEnv(env)).value.address;
      a.regionCode != "" && a.city != "" && a.street != "" && a.number != "" && a.locality != ""
  {
  }

  // ---------------------------------------------------------------- provider replies

  /** What PagBank answers for a charge; an empty string is a missing field. */
  datatype Charge = Charge(id: string, status: Option<string>, digitableLine: string, barcode: string,
                           pdf: string, downloadLink: string, createdAt: string)

  /** A reply of the charge endpoint: a non-2xx status with its body, or the charge. */
  datatype ChargeReply = HttpError(status: nat, body: string) | Charged(charge: Charge)

  /** The boleto `emitWithPagBank` returns for a charge. */
  function FromCharge(c: Charge, now: string): (rec: Record)
    ensures StatusOf(rec) == VStr(if c.status.Some? && c.status.value != "" then c.status.value else "emitido")
    ensures IdOf(rec) == VStr(c.id)
  {
    map["id" := VStr(c.id),
        "status" := VStr(Or(c.status.GetOr(""), "emitido")),
        "linhaDigitavel" := VStr(Or(c.digitableLine, Or(c.barcode, "N/A"))),
        "barcode" := VStr(Or(c.barcode, Text.DigitsOnly(c.digitableLine))),
        "pdfUrl" := VStr(Or(c.pdf, c.downloadLink)),
        "createdAt" := VStr(Or(c.createdAt, now)),
        "provider" := VStr("PAGBANK")]
  }

  /** The remote part `consultWithPagBank` returns: here `status` is taken as is. */
  function FromConsult(c: Charge, now: string): (rec: Record)
    ensures StatusOf(rec) == (if c.status.Some? then VStr(c.status.value) else VUndefined)
    ensures IdOf(rec) == VStr(c.id)
  {
    map["id" := VStr(c.id),
        "status" := (if c.status.Some? then VStr(c.status.value) else VUndefined),
        "linhaDigitavel" := VStr(Or(c.digitableLine, Or(c.barcode, "N/A"))),
        "barcode" := VStr(Or(c.barcode, Text.DigitsOnly(c.digitableLine))),
        "pdfUrl" := VStr(Or(c.pdf, c.downloadLink)),
        "createdAt" := VStr(Or(c.createdAt, now)),
        "provider" := VStr("PAGBANK")]
  }

  /** `{ ...cached, ...remote }`: every key of `remote` wins, every other key of `cached` stays. */
  function Merge(cached: Record, remote: Record): Record {
    cached + remote
  }

  lemma MergeOverrides(cached: Record, remote: Record)
    ensures forall k | k in remote :: Merge(cached, remote)[k] == remote[k]
    ensures forall k | k in cached && k !in remote :: Merge(cached, remote)[k] == cached[k]
    ensures Merge(cached, remote).Keys == cached.Keys + remote.Keys
  {
  }

  /** The error text of a failed charge: it carries the status and the body. */
  function ChargeError(status: nat, body: string): (msg: string)
    ensures |msg| >= |body| && msg[|msg| - |body|..] == body
  {
    "PagBank falhou (" + Text.NatToDigits(status) + "): " + body
  }

  /** The mock record for a valid request. */
  function MockRecord(body: IssueBody, id: string, digits: string, now: string): (rec: Record)
    requires |digits| == 47 && Text.AllDigits(digits) && body.pagador.Some?
    ensures IdOf(rec) == VStr(id) && StatusOf(rec) == VStr("emitido")
    ensures "provider" in rec && rec["provider"] == VStr("MOCK")
    ensures "barcode" in rec && rec["barcode"] == VStr(digits)
  {
    var linha := MakeLinhaDigitavel(digits);
    BarcodeOfLinha(digits);
    map["id" := VStr(id), "status" := VStr("emitido"),
        "valor" := body.valor, "vencimento" := body.vencimento,
        "pagador" := VPagador(body.pagador.value),
        "instrucoes" := VStr(body.instrucoes),
        "nossoNumero" := VStr(Or(body.nossoNumero, id)),
        "referencia" := (if body.referencia != "" then VStr(body.referencia) else VNull),
        "linhaDigitavel" := VStr(linha),
        "barcode" := VStr(Text.DigitsOnly(linha)),
        "pdfUrl" := VStr("https://via.placeholder.com/1200x1700.png?text=Boleto+" + id),
        "createdAt" := VStr(now),
        "provider" := VStr("MOCK")]
  }

  /** The request checks of the issue handler. */
  predicate ValidIssue(body: IssueBody) {
    Truthy(body.valor) && Truthy(body.vencimento) && body.pagador.Some?
    && body.pagador.value.nome != "" && body.pagador.value.documento != ""
  }

  /** Every record is stored under its own `id`. */
  predicate Keyed(store: map<Val, Record>) {
    forall k | k in store :: IdOf(store[k]) == k
  }

  // ---------------------------------------------------------------- the boleto store

  class BoletoStore {
    var store: map<Val, Record>
    /** `PROVIDER === 'PAGBANK'`. */
    const pagbank: bool
    const token: string
    const fallback: Fallback

    constructor(pagbank: bool, token: string, fallback: Fallback)
      ensures store == map[] && this.pagbank == pagbank && this.token == token && this.fallback == fallback
    {
      this.pagbank, this.token, this.fallback := pagbank, token, fallback;
      store := map[];
    }

    /** `POST /api/boletos`. `genId` and `digits` are the random id and the 47
        random digits; `charge` stands for the PagBank charge endpoint. */
    method Issue(body: IssueBody, genId: string, digits: string, now: string, charge: Payload -> ChargeReply)
      returns (r: Response)
      requires |digits| == 47 && Text.AllDigits(digits)
      modifies this
      ensures !ValidIssue(body) ==> r.Fail? && r.code == 400 && store == old(store)
      ensures ValidIssue(body) && !pagbank ==>
        r == Ok(201, MockRecord(body, genId, digits, now)) && store == old(store)[VStr(genId) := r.rec]
      ensures ValidIssue(body) && pagbank && token == "" ==> r.Fail? && r.code == 500 && store == old(store)
      ensures ValidIssue(body) && pagbank && token != "" ==>
        var reply := charge(BuildPagBankPayload(body, genId, fallback).value);
        && (reply.HttpError? ==> r == Fail(500, ChargeError(reply.status, reply.body)) && store == old(store))
        && (reply.Charged? ==> r == Ok(201, FromCharge(reply.charge, now))
                                && store == old(store)[VStr(reply.charge.id) := r.rec])
      ensures Keyed(old(store)) ==> Keyed(store)
    {
      if !ValidIssue(body) {
        return Fail(400, "Campos obrigat\U{F3}rios: valor, vencimento, pagador.nome, pagador.documento");
      }
      var boleto: Record;
      if pagbank {
        if token == "" {
          return Fail(500, "PAGBANK_TOKEN n\U{E3}o configurado");
        }
        var payload := BuildPagBankPayload(body, genId, fallback).value;
        var reply := charge(payload);
        if reply.HttpError? {
          return Fail(500, ChargeError(reply.status, reply.body));
        }
        boleto := FromCharge(reply.charge, now);
      } else {
        boleto := MockRecord(body, genId, digits, now);
      }
      store := store[IdOf(boleto) := boleto];
      return Ok(201, boleto);
    }

    /** `GET /api/boletos/:id`. `consult` is the PagBank answer, `None` when the
        call fails; a failure falls back to the cache. */
    method Query(id: string, consult: Option<Charge>, now: string) returns (r: Response)
      modifies this
      ensures pagbank && token != "" && consult.Some? ==>
        var cached := if VStr(id) in old(store) then old(store)[VStr(id)] else map[];
        r == Ok(200, Merge(cached, FromConsult(consult.value, now))) && store == old(store)[VStr(id) := r.rec]
      ensures !(pagbank && token != "" && consult.Some?) ==>
        store == old(store)
        && (VStr(id) in store ==> r == Ok(200, store[VStr(id)]))
        && (VStr(id) !in store ==> r.Fail? && r.code == 404)
      ensures Keyed(old(store)) && (consult.Some? ==> consult.value.id == id) ==> Keyed(store)
    {
      var cached := if VStr(id) in store then store[VStr(id)] else map[];
      if pagbank && token != "" && consult.Some? {
        var merged := Merge(cached, FromConsult(consult.value, now));
        store := store[VStr(id) := merged];
        return Ok(200, merged);
      }
      if VStr(id) !in store {
        return Fail(404, "Boleto n\U{E3}o encontrado");
      }
      return Ok(200, cached);
    }

    /** `POST /api/boletos/:id/cancel`. `cancel` is the PagBank answer (the
        remote id and status), `None` when the call fails. */
    method Cancel(id: string, cancel: Option<(string, Option<string>)>, now: string) returns (r: Response)
      modifies this
      ensures VStr(id) !in old(store) ==> r == Fail(404, "Boleto n\U{E3}o encontrado") && store == old(store)
      ensures VStr(id) in old(store) && StatusOf(old(store)[VStr(id)]) == VStr("pago") ==>
        r == Fail(400, "Boleto j\U{E1} pago") && store == old(store)
      ensures VStr(id) in old(store) && StatusOf(old(store)[VStr(id)]) != VStr("pago") ==>
        var cached := old(store)[VStr(id)];
        && (pagbank && (token == "" || cancel.None?) ==> r.Fail? && r.code == 500 && store == old(store))
        && (pagbank && token != "" && cancel.Some? ==>
              var merged := Merge(Merge(cached, CancelReply(cancel.value.0, cancel.value.1)),
                                  map["canceledAt" := VStr(now)]);
              r == Ok(200, merged) && store == old(store)[IdOf(cached) := merged])
        && (!pagbank ==>
              var updated := cached["status" := VStr("cancelado")]["canceledAt" := VStr(now)];
              r == Ok(200, updated) && store == old(store)[VStr(id) := updated][IdOf(cached) := updated])
      ensures Keyed(old(store)) && (pagbank && cancel.Some? ==> cancel.value.0 == id) ==> Keyed(store)
    {
      if VStr(id) !in store {
        return Fail(404, "Boleto n\U{E3}o encontrado");
      }
      var cached := store[VStr(id)];
      if StatusOf(cached) == VStr("pago") {
        return Fail(400, "Boleto j\U{E1} pago");
      }
      if pagbank {
        if token == "" {
          return Fail(500, "PAGBANK_TOKEN n\U{E3}o configurado");
        }
        if cancel.None? {
          return Fail(500, "Falha ao cancelar");
        }
        var merged := Merge(Merge(cached, CancelReply(cancel.value.0, cancel.value.1)), map["canceledAt" := VStr(now)]);
        store := store[IdOf(cached) := merged];
        return Ok(200, merged);
      }
      // the record is changed in place, so the entry under `id` changes too
      var updated := cached["status" := VStr("cancelado")]["canceledAt" := VStr(now)];
      store := store[VStr(id) := updated][IdOf(cached) := updated];
      return Ok(200, updated);
    }

    /** `POST /webhooks/boletos` with the body's `id` and `status`. */
    method Webhook(id: Val, status: Val, now: string) returns (r: Response)
      modifies this
      ensures !Truthy(id) ==> r == Fail(400, "id ausente") && store == old(store)
      ensures Truthy(id) ==>
        r.Ok? && r.code == 200 && store == old(store)[id := WebhookRecord(old(store), id, status, now)]
      ensures Keyed(old(store)) ==> Keyed(store)
    {
      if !Truthy(id) {
        return Fail(400, "id ausente");
      }
      var b := if id in store then store[id] else map["id" := id, "status" := VStr("desconhecido")];
      if status == VStr("PAID") || status == VStr("paid") {
        b := b["status" := VStr("pago")]["paidAt" := VStr(now)];
      }
      store := store[id := b];
      return Ok(200, map["ok" := VStr("true")]);
    }
  }

  /** `{ id: data.id, status: data.status || 'cancelado' }`. */
  function CancelReply(rid: string, rstatus: Option<string>): Record {
    map["id" := VStr(rid), "status" := VStr(Or(rstatus.GetOr(""), "cancelado"))]
  }

  /** The record the webhook stores: the cached one or a `desconhecido`
      placeholder, moved to `pago` on a `PAID`/`paid` event. */
  function WebhookRecord(store: map<Val, Record>, id: Val, status: Val, now: string): (b: Record)
    ensures status == VStr("PAID") || status == VStr("paid") ==> StatusOf(b) == VStr("pago")
    ensures !(status == VStr("PAID") || status == VStr("paid")) ==>
      StatusOf(b) == (if id in store then StatusOf(store[id]) else VStr("desconhecido"))
    ensures id !in store || Keyed(store) ==> IdOf(b) == id
  {
    var b := if id in store then store[id] else map["id" := id, "status" := VStr("desconhecido")];
    if status == VStr("PAID") || status == VStr("paid") then b["status" := VStr("pago")]["paidAt" := VStr(now)] else b
  }

  /** Replaying a payment event leaves the boleto paid, and once paid no other
      event moves it. */
  lemma PaidStaysPaid(store: map<Val, Record>, id: Val, status: Val, now: string)
    requires id in store && StatusOf(store[id]) == VStr("pago")
    ensures StatusOf(WebhookRecord(store, id, status, now)) == VStr("pago")
  {
  }

  // ---------------------------------------------------------------- the user map

  datatype ServerUser = ServerUser(id: string, username: string, email: string, passwordHash: string,
                                   recoveryQuestion: string, recoveryAnswerHash: string, createdAt: string)

  function ServerUserId(u: ServerUser): string { u.id }

  /** The clash test of the register handler: the same username ignoring case,
      or the same non-empty e-mail ignoring case. */
  predicate Clashes(u: ServerUser, username: string, email: string) {
    Text.Lower(u.username) == Text.Lower(username)
    || (email != "" && u.email != "" && Text.Lower(u.email) == Text.Lower(email))
  }

  /** The lookup of the login handler for the trimmed, lower-cased query. */
  function MatchesLogin(q: string): ServerUser -> bool {
    (u: ServerUser) => Text.Lower(u.username) == q || (u.email != "" && Text.Lower(u.email) == q)
  }

  datatype RegisterBody = RegisterBody(username: string, email: string, password: string,
                                       recoveryQuestion: string, recoveryAnswer: string)

  datatype AuthReply = BadRequest | Conflict | Unauthorized | Registered(user: ServerUser) | LoggedIn(user: ServerUser)

  /** The `users` map, in insertion order; `sha256` is the hex digest. */
  class UserStore {
    var users: seq<ServerUser>
    const sha256: string -> string

    constructor(sha256: string -> string)
      ensures users == [] && this.sha256 == sha256
    {
      this.sha256 := sha256;
      users := [];
    }

    /** `POST /api/auth/register`; `userId` is the random id. */
    method Register(body: RegisterBody, userId: string, now: string) returns (r: AuthReply)
      modifies this
      ensures body.username == "" || body.password == "" || body.recoveryQuestion == "" || body.recoveryAnswer == "" ==>
        r == BadRequest && users == old(users)
      ensures body.username != "" && body.password != "" && body.recoveryQuestion != "" && body.recoveryAnswer != "" ==>
        && (r == Conflict <==> exists i | 0 <= i < |old(users)| :: Clashes(old(users)[i], body.username, body.email))
        && (r == Conflict ==> users == old(users))
        && (r != Conflict ==>
              var u := ServerUser(userId, body.username, body.email, sha256(body.password), body.recoveryQuestion,
                                  sha256(Text.Trim(Text.Lower(body.recoveryAnswer))), now);
              r == Registered(u) && users == Records.Upsert(old(users), ServerUserId, u))
    {
      if body.username == "" || body.password == "" || body.recoveryQuestion == "" || body.recoveryAnswer == "" {
        return BadRequest;
      }
      var clash := Records.FirstIndex(users, (u: ServerUser) => Clashes(u, body.username, body.email));
      if clash >= 0 {
        return Conflict;
      }
      var u := ServerUser(userId, body.username, body.email, sha256(body.password), body.recoveryQuestion,
                          sha256(Text.Trim(Text.Lower(body.recoveryAnswer))), now);
      users := Records.Upsert(users, ServerUserId, u);
      return Registered(u);
    }

    /** `POST /api/auth/login`: the first user matching the query, then the hash check. */
    method Login(usernameOrEmail: string, password: string) returns (r: AuthReply)
      ensures usernameOrEmail == "" || password == "" ==> r == BadRequest
      ensures usernameOrEmail != "" && password != "" ==>
        var i := Records.FirstIndex(users, MatchesLogin(Text.Trim(Text.Lower(usernameOrEmail))));
        && (r.LoggedIn? <==> i >= 0 && users[i].passwordHash == sha256(password))
        && (r.LoggedIn? ==> r.user == users[i])
        && (!r.LoggedIn? ==> r == Unauthorized)
    {
      if usernameOrEmail == "" || password == "" {
        return BadRequest;
      }
      var q := Text.Trim(Text.Lower(usernameOrEmail));
      var i := Records.FirstIndex(users, MatchesLogin(q));
      if i < 0 {
        return Unauthorized;
      }
      if sha256(password) != users[i].passwordHash {
        return Unauthorized;
      }
      return LoggedIn(users[i]);
    }
  }

  /** A newly appended user whose username has no surrounding blanks is the
      login match for that username, when no earlier user matches it. */
  lemma LoginFindsNewUser(users: seq<ServerUser>, u: ServerUser)
    requires Text.Trim(Text.Lower(u.username)) == Text.Lower(u.username)
    requires forall i | 0 <= i < |users| :: !MatchesLogin(Text.Lower(u.username))(users[i])
    ensures Records.FirstIndex(users + [u], MatchesLogin(Text.Trim(Text.Lower(u.username)))) == |users|
  {
    var p := MatchesLogin(Text.Lower(u.username));
    var xs := users + [u];
    assert p(xs[|users|]);
    assert forall j | 0 <= j < |users| :: !p(xs[j]) by {
      forall j | 0 <= j < |users| ensures !p(xs[j]) {
        assert xs[j] == users[j];
      }
    }
  }

  /** The register check compares usernames with usernames and e-mails with
      e-mails only: a username equal to an earlier user's e-mail is accepted,
      and a login with it reaches the earlier user. */
  lemma EmailShadowsUsername(a: ServerUser, b: ServerUser)
    requires a.username == "ana" && a.email == "bob" && b.username == "bob" && b.email == ""
    ensures !Clashes(a, b.username, b.email)
    ensures Records.FirstIndex([a, b], MatchesLogin(Text.Trim(Text.Lower(b.username)))) == 0
  {
    Text.LowerNoUpper("ana");
    Text.LowerNoUpper("bob");
    assert "ana"[0] != "bob"[0];
    assert Text.Trim("bob") == "bob" by {
      assert Text.TrimStart("bob") == "bob";
      assert Text.TrimEnd("bob") == "bob";
    }
    assert MatchesLogin("bob")(a);
  }
}
