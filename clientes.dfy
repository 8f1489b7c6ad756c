/** The client register (modules/clientes.js): the Brazilian CPF and CNPJ
    check-digit rules, the e-mail pattern, the CEP formatter, the search
    normaliser and the validate-then-upsert save. */
module Clientes {
  import opened Wrappers
  import opened Text
  import Records

  /** `/^(\d)\1+$/`: at least two characters, all equal to the first. */
  predicate AllSame(d: string) {
    |d| >= 2 && forall i | 0 <= i < |d| :: d[i] == d[0]
  }

  // ---------------------------------------------------------------- CPF

  /** Σ_{i=1..m} d[i-1]·(top − i), the weighted digit sum of the CPF loops
      (top = 11 for the first check digit, 12 for the second). */
  function CpfPartial(d: string, top: int, m: nat): int
    requires m <= |d| && AllDigits(d)
  {
    if m == 0 then 0 else CpfPartial(d, top, m - 1) + DigitValue(d[m - 1]) * (top - m)
  }

  /** `resto = (soma * 10) % 11`, with 10 and 11 read as 0. */
  function CpfCheckDigit(soma: int): (r: nat)
    ensures r < 10
  {
    var resto := (soma * 10) % 11;
    if resto == 10 || resto == 11 then 0 else resto
  }

  /** The CPF rule: 11 digits once non-digits are stripped, not all equal,
      and both Receita Federal check digits right. */
  predicate IsValidCpf(cpf: string) {
    var d := DigitsOnly(cpf);
    && |d| == 11
    && !AllSame(d)
    && CpfCheckDigit(CpfPartial(d, 11, 9)) == DigitValue(d[9])
    && CpfCheckDigit(CpfPartial(d, 12, 10)) == DigitValue(d[10])
  }

  /** `validarCPF`: the two summing loops of the source. */
  method ValidarCpf(input: string) returns (ok: bool)
    ensures ok <==> IsValidCpf(input)
  {
    var cpf := DigitsOnly(input);
    if |cpf| != 11 {
      return false;
    }
    if AllSame(cpf) {
      return false;
    }
    var soma := 0;
    for i := 1 to 10
      invariant soma == CpfPartial(cpf, 11, i - 1)
    {
      soma := soma + DigitValue(cpf[i - 1]) * (11 - i);
    }
    var resto := (soma * 10) % 11;
    if resto == 10 || resto == 11 {
      resto := 0;
    }
    if resto != DigitValue(cpf[9]) {
      return false;
    }
    soma := 0;
    for i := 1 to 11
      invariant soma == CpfPartial(cpf, 12, i - 1)
    {
      soma := soma + DigitValue(cpf[i - 1]) * (12 - i);
    }
    resto := (soma * 10) % 11;
    if resto == 10 || resto == 11 {
      resto := 0;
    }
    if resto != DigitValue(cpf[10]) {
      return false;
    }
    return true;
  }

  /** The weighted sum reads only the first `m` digits. */
  lemma {:induction false} CpfPartialPrefix(d: string, e: string, top: int, m: nat)
    requires m <= |d| && m <= |e| && AllDigits(d) && AllDigits(e)
    requires d[..m] == e[..m]
    ensures CpfPartial(d, top, m) == CpfPartial(e, top, m)
  {
    if m > 0 {
      assert d[m - 1] == d[..m][m - 1] == e[..m][m - 1] == e[m - 1];
      assert d[..m - 1] == d[..m][..m - 1];
      assert e[..m - 1] == e[..m][..m - 1];
      CpfPartialPrefix(d, e, top, m - 1);
    }
  }

  /** Nine base digits followed by the two check digits the rule demands. */
  function CpfComplete(base: string): (r: string)
    requires |base| == 9 && AllDigits(base)
    ensures |r| == 11 && AllDigits(r) && r[..9] == base
  {
    var with1 := base + [DigitChar(CpfCheckDigit(CpfPartial(base, 11, 9)))];
    with1 + [DigitChar(CpfCheckDigit(CpfPartial(with1, 12, 10)))]
  }

  /** Every nine-digit base that is not a repeated digit completes to a valid CPF. */
  lemma CpfCompleteIsValid(base: string)
    requires |base| == 9 && AllDigits(base)
    requires !AllSame(CpfComplete(base))
    ensures IsValidCpf(CpfComplete(base))
  {
    var r := CpfComplete(base);
    DigitsOnlyKeepsDigits(r);
    var with1 := r[..10];
    CpfPartialPrefix(r, base, 11, 9);
    CpfPartialPrefix(r, with1, 12, 10);
  }

  /** A valid CPF is determined by its first nine digits: they fix both check digits. */
  lemma CpfDeterminedByBase(cpf: string)
    requires IsValidCpf(cpf)
    ensures var d := DigitsOnly(cpf); d == CpfComplete(d[..9])
  {
    var d := DigitsOnly(cpf);
    var base := d[..9];
    var with1 := base + [DigitChar(CpfCheckDigit(CpfPartial(base, 11, 9)))];
    CpfPartialPrefix(d, base, 11, 9);
    assert with1[9] == d[9] by {
      assert DigitValue(with1[9]) == DigitValue(d[9]);
    }
    assert with1 == d[..10];
    CpfPartialPrefix(d, with1, 12, 10);
    var r := CpfComplete(base);
    assert r == with1 + [DigitChar(CpfCheckDigit(CpfPartial(with1, 12, 10)))];
    assert r[10] == d[10] by {
      assert DigitValue(r[10]) == DigitValue(d[10]);
    }
    assert d == d[..10] + [d[10]];
  }

  // ---------------------------------------------------------------- CNPJ

  /** The weight of position `k` in the CNPJ sum over `n` digits: the source's
      `pos` starts at n − 7, counts down, and wraps from 1 back to 9. */
  function CnpjWeight(n: int, k: int): int {
    if k < n - 8 then n - 7 - k else n + 1 - k
  }

  /** Σ_{k<m} d[k]·CnpjWeight(n, k). */
  function CnpjPartial(d: string, n: int, m: nat): int
    requires m <= |d| && AllDigits(d)
  {
    if m == 0 then 0 else CnpjPartial(d, n, m - 1) + DigitValue(d[m - 1]) * CnpjWeight(n, m - 1)
  }

  /** `soma % 11 < 2 ? 0 : 11 - soma % 11`. */
  function CnpjCheckDigit(soma: int): (r: nat)
    ensures r < 10
  {
    if soma % 11 < 2 then 0 else 11 - soma % 11
  }

  /** The CNPJ rule: 14 digits, not all equal, both check digits right. */
  predicate IsValidCnpj(cnpj: string) {
    var d := DigitsOnly(cnpj);
    && |d| == 14
    && !AllSame(d)
    && CnpjCheckDigit(CnpjPartial(d, 12, 12)) == DigitValue(d[12])
    && CnpjCheckDigit(CnpjPartial(d, 13, 13)) == DigitValue(d[13])
  }

  /** The wrap-around step of `pos` agrees with the weight table. */
  lemma CnpjWeightStep(n: int, k: nat)
    requires n >= 9 && k + 1 < n
    ensures CnpjWeight(n, k + 1) == if CnpjWeight(n, k) - 1 < 2 then 9 else CnpjWeight(n, k) - 1
  {
  }

  /** The `for(i = tamanho; i >= 1; i--)` loop with its cycling `pos`. */
  method CnpjSum(numeros: string) returns (soma: int)
    requires AllDigits(numeros) && 9 <= |numeros|
    ensures soma == CnpjPartial(numeros, |numeros|, |numeros|)
  {
    var tamanho := |numeros|;
    soma := 0;
    var pos := tamanho - 7;
    var i := tamanho;
    while i >= 1
      invariant 0 <= i <= tamanho
      invariant soma == CnpjPartial(numeros, tamanho, tamanho - i)
      invariant i >= 1 ==> pos == CnpjWeight(tamanho, tamanho - i)
    {
      soma := soma + DigitValue(numeros[tamanho - i]) * pos;
      pos := pos - 1;
      if pos < 2 {
        pos := 9;
      }
      if i > 1 {
        CnpjWeightStep(tamanho, tamanho - i);
      }
      i := i - 1;
    }
  }

  /** `validarCNPJ`. */
  method ValidarCnpj(input: string) returns (ok: bool)
    ensures ok <==> IsValidCnpj(input)
  {
    var cnpj := DigitsOnly(input);
    if |cnpj| != 14 {
      return false;
    }
    if AllSame(cnpj) {
      return false;
    }
    var soma := CnpjSum(cnpj[..12]);
    CnpjPartialPrefix(cnpj[..12], cnpj, 12, 12);
    if CnpjCheckDigit(soma) != DigitValue(cnpj[12]) {
      return false;
    }
    soma := CnpjSum(cnpj[..13]);
    CnpjPartialPrefix(cnpj[..13], cnpj, 13, 13);
    if CnpjCheckDigit(soma) != DigitValue(cnpj[13]) {
      return false;
    }
    return true;
  }

  lemma {:induction false} CnpjPartialPrefix(d: string, e: string, n: int, m: nat)
    requires m <= |d| && m <= |e| && AllDigits(d) && AllDigits(e)
    requires d[..m] == e[..m]
    ensures CnpjPartial(d, n, m) == CnpjPartial(e, n, m)
  {
    if m > 0 {
      assert d[m - 1] == d[..m][m - 1] == e[..m][m - 1] == e[m - 1];
      assert d[..m - 1] == d[..m][..m - 1];
      assert e[..m - 1] == e[..m][..m - 1];
      CnpjPartialPrefix(d, e, n, m - 1);
    }
  }

  /** Twelve base digits followed by the two check digits the rule demands. */
  function CnpjComplete(base: string): (r: string)
    requires |base| == 12 && AllDigits(base)
    ensures |r| == 14 && AllDigits(r) && r[..12] == base
  {
    var with1 := base + [DigitChar(CnpjCheckDigit(CnpjPartial(base, 12, 12)))];
    with1 + [DigitChar(CnpjCheckDigit(CnpjPartial(with1, 13, 13)))]
  }

  /** Every twelve-digit base that is not a repeated digit completes to a valid CNPJ. */
  lemma CnpjCompleteIsValid(base: string)
    requires |base| == 12 && AllDigits(base)
    requires !AllSame(CnpjComplete(base))
    ensures IsValidCnpj(CnpjComplete(base))
  {
    var r := CnpjComplete(base);
    DigitsOnlyKeepsDigits(r);
    CnpjPartialPrefix(r, base, 12, 12);
    CnpjPartialPrefix(r, r[..13], 13, 13);
  }

  /** A valid CNPJ is determined by its first twelve digits. */
  lemma CnpjDeterminedByBase(cnpj: string)
    requires IsValidCnpj(cnpj)
    ensures var d := DigitsOnly(cnpj); d == CnpjComplete(d[..12])
  {
    var d := DigitsOnly(cnpj);
    var base := d[..12];
    var with1 := base + [DigitChar(CnpjCheckDigit(CnpjPartial(base, 12, 12)))];
    CnpjPartialPrefix(d, base, 12, 12);
    assert with1[12] == d[12] by {
      assert DigitValue(with1[12]) == DigitValue(d[12]);
    }
    assert with1 == d[..13];
    CnpjPartialPrefix(d, with1, 13, 13);
    var r := CnpjComplete(base);
    assert r == with1 + [DigitChar(CnpjCheckDigit(CnpjPartial(with1, 13, 13)))];
    assert r[13] == d[13] by {
      assert DigitValue(r[13]) == DigitValue(d[13]);
    }
    assert d == d[..13] + [d[13]];
  }

  // ---------------------------------------------------------------- documento

  /** `validarDocumento`: `pf` is checked as a CPF, `pj` as a CNPJ, any other type fails. */
  method ValidarDocumento(documento: string, tipo: string) returns (ok: bool)
    ensures tipo == "pf" ==> (ok <==> IsValidCpf(documento))
    ensures tipo == "pj" ==> (ok <==> IsValidCnpj(documento))
    ensures tipo != "pf" && tipo != "pj" ==> !ok
  {
    if tipo == "pf" {
      ok := ValidarCpf(documento);
    } else if tipo == "pj" {
      ok := ValidarCnpj(documento);
    } else {
      ok := false;
    }
  }

  // ---------------------------------------------------------------- e-mail

  /** A character of the class `[^\s@]`. */
  predicate PlainChar(c: char) {
    !IsSpace(c) && c != '@'
  }

  predicate AllPlain(s: string) {
    forall i | 0 <= i < |s| :: PlainChar(s[i])
  }

  /** The language of `/^[^\s@]+@[^\s@]+\.[^\s@]+$/`, written as the regular
      expression reads. */
  ghost predicate MatchesEmailPattern(e: string) {
    exists a: string, b: string, c: string
      | e == a + "@" + b + "." + c
      :: a != [] && b != [] && c != [] && AllPlain(a) && AllPlain(b) && AllPlain(c)
  }

  /** A dot with at least one character on each side. */
  predicate HasInnerDot(d: string) {
    exists p | 0 < p < |d| - 1 :: d[p] == '.'
  }

  /** `validarEmail`: one scan for the `@`, then the domain checks. */
  function ValidarEmail(e: string): (ok: bool)
  {
    var k := Records.FirstIndex(e, (ch: char) => ch == '@');
    && NoSpace(e)
    && 0 < k
    && AllPlain(e[k + 1..])
    && HasInnerDot(e[k + 1..])
  }

  /** The scan accepts exactly the strings the pattern describes. */
  lemma ValidarEmailMatchesPattern(e: string)
    ensures ValidarEmail(e) <==> MatchesEmailPattern(e)
  {
    if ValidarEmail(e) {
      ScanImpliesPattern(e);
    }
    if MatchesEmailPattern(e) {
      var a: string, b: string, c: string :|
        e == a + "@" + b + "." + c
        && a != [] && b != [] && c != [] && AllPlain(a) && AllPlain(b) && AllPlain(c);
      PatternImpliesScan(e, a, b, c);
    }
  }

  lemma ScanImpliesPattern(e: string)
    requires ValidarEmail(e)
    ensures MatchesEmailPattern(e)
  {
    var k := Records.FirstIndex(e, (ch: char) => ch == '@');
    var d := e[k + 1..];
    var p :| 0 < p < |d| - 1 && d[p] == '.';
    var a, b, c := e[..k], d[..p], d[p + 1..];
    assert d == b + "." + c;
    assert e == a + "@" + b + "." + c by {
      assert e == e[..k] + [e[k]] + d;
    }
    assert AllPlain(a) by {
      forall i | 0 <= i < |a| ensures PlainChar(a[i]) {
        assert a[i] == e[i];
      }
    }
    assert AllPlain(b) && AllPlain(c) by {
      forall i | 0 <= i < |b| ensures PlainChar(b[i]) {
        assert b[i] == d[i];
      }
      forall i | 0 <= i < |c| ensures PlainChar(c[i]) {
        assert c[i] == d[p + 1 + i];
      }
    }
  }

  lemma PatternImpliesScan(e: string, a: string, b: string, c: string)
    requires e == a + "@" + b + "." + c
    requires a != [] && b != [] && c != [] && AllPlain(a) && AllPlain(b) && AllPlain(c)
    ensures ValidarEmail(e)
  {
    var k := Records.FirstIndex(e, (ch: char) => ch == '@');
    var d := b + "." + c;
    assert e == a + "@" + d;
    assert e[|a|] == '@';
    assert forall i | 0 <= i < |a| :: e[i] == a[i];
    assert k == |a|;
    assert e[k + 1..] == d;
    assert d[|b|] == '.';
    assert AllPlain(d) by {
      forall i | 0 <= i < |d| ensures PlainChar(d[i]) {
        if i < |b| {
          assert d[i] == b[i];
        } else if i > |b| {
          assert d[i] == c[i - |b| - 1];
        }
      }
    }
    assert NoSpace(e) by {
      forall i | 0 <= i < |e| ensures !IsSpace(e[i]) {
        if i < |a| {
          assert e[i] == a[i];
        } else if i > |a| {
          assert e[i] == d[i - |a| - 1];
        }
      }
    }
  }

  // ---------------------------------------------------------------- CEP

  /** `formatCEP`: keep the digits and, for six to eight of them, put `-`
      after the fifth (the `^(\d{5})(\d)` replacement needs a sixth digit). */
  function FormatCep(s: string): (r: string)
    ensures var v := DigitsOnly(s);
      && (6 <= |v| <= 8 ==> r == v[..5] + "-" + v[5..])
      && (!(6 <= |v| <= 8) ==> r == v)
  {
    var v := DigitsOnly(s);
    if |v| <= 8 && |v| >= 6 then v[..5] + "-" + v[5..] else v
  }

  /** Formatting drops only non-digits: the digits survive, in order. */
  lemma FormatCepKeepsDigits(s: string)
    ensures DigitsOnly(FormatCep(s)) == DigitsOnly(s)
  {
    var v := DigitsOnly(s);
    if 6 <= |v| <= 8 {
      assert v == v[..5] + v[5..];
      DigitsOnlyConcat(v[..5] + "-", v[5..]);
      DigitsOnlyConcat(v[..5], "-");
      DigitsOnlyKeepsDigits(v[..5]);
      DigitsOnlyKeepsDigits(v[5..]);
    } else {
      DigitsOnlyKeepsDigits(v);
    }
  }

  /** Formatting an already formatted CEP changes nothing. */
  lemma FormatCepIdempotent(s: string)
    ensures FormatCep(FormatCep(s)) == FormatCep(s)
  {
    FormatCepKeepsDigits(s);
  }

  // ---------------------------------------------------------------- normalizeText

  /** The combining diacritical marks, U+0300 to U+036F. */
  predicate IsCombiningMark(c: char) {
    '\U{0300}' <= c <= '\U{036F}'
  }

  function StripMarks(s: string): (r: string)
    ensures forall i | 0 <= i < |r| :: !IsCombiningMark(r[i])
  {
    if s == [] then []
    else if IsCombiningMark(s[0]) then StripMarks(s[1..])
    else [s[0]] + StripMarks(s[1..])
  }

  /** Free of combining marks and of capitals. */
  predicate Folded(s: string) {
    forall i | 0 <= i < |s| :: !IsCombiningMark(s[i]) && !IsUpper(s[i])
  }

  lemma LowerStripFolded(s: string)
    ensures Folded(Lower(StripMarks(s)))
  {
    var m := StripMarks(s);
    var l := Lower(m);
    forall i | 0 <= i < |l| ensures !IsCombiningMark(l[i]) && !IsUpper(l[i]) {
      assert l[i] == LowerChar(m[i]);
    }
  }

  lemma TrimFolded(s: string)
    requires Folded(s)
    ensures Folded(Trim(s))
  {
    var t := TrimStart(s);
    var r := TrimEnd(t);
    forall i | 0 <= i < |r| ensures !IsCombiningMark(r[i]) && !IsUpper(r[i]) {
      assert r[i] == t[i] == s[|s| - |t| + i];
    }
  }

  /** `normalizeText`: null and undefined give `''`; otherwise decompose
      (`nfd` is Unicode NFD, supplied by the platform), drop the combining
      marks, lower-case and trim. */
  function NormalizeText(text: Option<string>, nfd: string -> string): (r: string)
    ensures text.None? ==> r == []
    ensures Folded(r)
    ensures r == [] || (!IsSpace(r[0]) && !IsSpace(r[|r| - 1]))
  {
    if text.None? then []
    else
      var lowered := Lower(StripMarks(nfd(text.value)));
      LowerStripFolded(nfd(text.value));
      TrimFolded(lowered);
      Trim(lowered)
  }

  // ---------------------------------------------------------------- saveCliente

  datatype Endereco = Endereco(cep: string, logradouro: string, numero: string,
                               complemento: string, bairro: string, cidade: string, estado: string)

  datatype Contato = Contato(telefone: string, celular: string, email: string, site: string)

  /** The type-specific fields: `rg`/`dataNascimento` for `pf`, `nomeFantasia`/
      `inscricaoEstadual` for `pj`, none for any other type. */
  datatype Extra =
    | PessoaFisica(rg: string, dataNascimento: string)
    | PessoaJuridica(nomeFantasia: string, inscricaoEstadual: string)
    | NoExtra

  /** A client. The two totals are `None` when a stored record lacks them
      (`undefined`) or holds NaN. */
  datatype Cliente = Cliente(
    id: string, tipo: string, nome: string, documento: string, status: string,
    dataCadastro: string, dataAtualizacao: string,
    endereco: Endereco, contato: Contato, observacoes: string, extra: Extra,
    totalOrcamentos: Option<real>, totalCompras: Option<real>)

  /** What the client form holds; `id` is `form.dataset.id`, empty for a new client. */
  datatype ClienteForm = ClienteForm(
    id: string, tipo: string, nome: string, documento: string, status: string,
    endereco: Endereco, contato: Contato, observacoes: string,
    rg: string, dataNascimento: string, nomeFantasia: string, inscricaoEstadual: string)

  datatype SaveOutcome = Saved | InvalidDocument | InvalidEmail

  function ClienteId(c: Cliente): string { c.id }

  /** The record `saveCliente` builds from the form. `current` is the client
      being edited, `now` the current ISO timestamp and `nowId` `Date.now()` as text. */
  function BuildCliente(form: ClienteForm, current: Option<Cliente>, now: string, nowId: string): (c: Cliente)
    requires form.id != "" ==> current.Some?
    ensures c.id == (if form.id != "" then form.id else nowId)
    ensures c.documento == DigitsOnly(form.documento)
    ensures c.dataAtualizacao == now
    ensures c.totalOrcamentos.Some? && c.totalCompras.Some?
    ensures form.id == "" ==> c.dataCadastro == now && c.totalOrcamentos == Some(0.0) && c.totalCompras == Some(0.0)
    ensures form.id != "" ==>
              && c.dataCadastro == current.value.dataCadastro
              && c.totalOrcamentos == Some(OrZero(current.value.totalOrcamentos))
              && c.totalCompras == Some(OrZero(current.value.totalCompras))
    ensures c.extra.PessoaFisica? <==> form.tipo == "pf"
    ensures c.extra.PessoaJuridica? <==> form.tipo == "pj"
  {
    var editing := form.id != "";
    Cliente(
      if editing then form.id else nowId,
      form.tipo, form.nome, DigitsOnly(form.documento), form.status,
      if editing then current.value.dataCadastro else now,
      now, form.endereco, form.contato, form.observacoes,
      if form.tipo == "pf" then PessoaFisica(form.rg, form.dataNascimento)
      else if form.tipo == "pj" then PessoaJuridica(form.nomeFantasia, form.inscricaoEstadual)
      else NoExtra,
      Some(if editing then OrZero(current.value.totalOrcamentos) else 0.0),
      Some(if editing then OrZero(current.value.totalCompras) else 0.0))
  }

  /** The client list of the application state. */
  class ClienteStore {
    var clientes: seq<Cliente>

    constructor(initial: seq<Cliente>)
      ensures clientes == initial
    {
      clientes := initial;
    }

    /** `saveCliente`: the document must pass its type's rule and a non-empty
        e-mail must match the pattern; only then is the client upserted by id. */
    method SaveCliente(form: ClienteForm, current: Option<Cliente>, now: string, nowId: string)
      returns (outcome: SaveOutcome)
      requires form.id != "" ==> current.Some?
      modifies this
      ensures var doc := DigitsOnly(form.documento);
        var docOk := (form.tipo == "pf" && IsValidCpf(doc)) || (form.tipo == "pj" && IsValidCnpj(doc));
        && (outcome == InvalidDocument <==> !docOk)
        && (outcome == InvalidEmail <==> docOk && form.contato.email != "" && !MatchesEmailPattern(form.contato.email))
      ensures outcome != Saved ==> clientes == old(clientes)
      ensures outcome == Saved ==>
        clientes == Records.Upsert(old(clientes), ClienteId, BuildCliente(form, current, now, nowId))
    {
      var documento := DigitsOnly(form.documento);
      var docOk := ValidarDocumento(documento, form.tipo);
      if !docOk {
        return InvalidDocument;
      }
      var email := form.contato.email;
      ValidarEmailMatchesPattern(email);
      if email != "" && !ValidarEmail(email) {
        return InvalidEmail;
      }
      var cliente := BuildCliente(form, current, now, nowId);
      clientes := Records.Upsert(clientes, ClienteId, cliente);
      return Saved;
    }
  }

  /** A rejected save leaves the register as it was; an accepted one makes the
      saved client the one found under its id. */
  lemma SavedClienteIsFound(xs: seq<Cliente>, c: Cliente)
    ensures var r := Records.Upsert(xs, ClienteId, c);
      var i := Records.IndexOf(r, ClienteId, c.id);
      0 <= i < |r| && r[i] == c
  {
    Records.FindAfterUpsert(xs, ClienteId, c);
  }
}
