# Izak Gestão — a Dafny model of the business core

Izak Gestão is a small browser application for a Brazilian workshop. It handles
quotes (*orçamentos*), service orders (*ordens de serviço*), clients, stock, a
financial ledger with a cash till (*caixa*) and reports. A small Express server
issues bank slips (*boletos*) and keeps an in-memory user list. Every module
reads and writes one shared object, `IzakGestao.data`, which is persisted to
`localStorage`.

This project models that shared business state and the rules that change it, in
Dafny. It has one module per source file:

| Dafny module | source | form |
|---|---|---|
| `App` | `app.js` | pure functions, plus an `Application` class for `loadData` |
| `Auth` | `modules/auth.js` | pure step functions, plus an `AuthStore` class holding the cached user list |
| `Financeiro` | `modules/financeiro.js` | a `Ledger` class holding `contasReceber`, `contasPagar` and `caixa` |
| `Server` | `server/server.js` | a `BoletoStore` class (map from id to record) and a `UserStore` class |
| `Clientes` | `modules/clientes.js` | check-digit loops as methods, plus a `ClienteStore` class |
| `Relatorios` | `modules/relatorios.js` | report accumulation loops as methods, specified by functions |
| `Ordens` | `modules/os.js` | an `OSStore` class |
| `Orcamentos` | `modules/orcamentos.js` | an `OrcamentoStore` class and the form's `TabStrip` |
| `Estoque` | `modules/estoque.js` | an `EstoqueStore` class |

Some modules are shared by the ones above:

- `Text`: digits, `padStart`, `trim`, `toLowerCase`.
- `Numbers`: `parseFloat`, `Number`, `toFixed(2)` and `String.replace` with a string pattern.
- `Calendar`: the ECMAScript day and month arithmetic behind local `Date` values.
- `Records`: `findIndex`, the id-keyed replace-or-push that every save performs, `filter`, and sums.
- `Sorting`: `Array.prototype.sort` as an insertion sort over a comparator, proved stable.
- `Wrappers`: `Option`, and `x || 0` as `OrZero`.

Modelling conventions:

- **Money** is `real`. The sums are therefore exact, and there is no IEEE rounding.
- **Instants** are integer milliseconds on the local time line, counted from
  1 January 1970.
- **Optional values.** A value that JavaScript may see as `NaN`, `undefined` or
  `null` is an `Option`.
- **Outside inputs.** The clock, `Math.random()`, `Date.now()` ids, hashing
  (SHA-256 or WebCrypto) and every network reply are parameters. The payment
  provider is a function or an optional reply passed in by the caller, so each
  contract covers every possible answer.

## Model

| member | source | states |
|---|---|---|
| App.KeepMoneyChars | app.js:28 | the `/[^0-9,-]/g` filter keeps only digits, commas and minus signs, and never lengthens the text |
| App.ParseCurrencyValue | app.js:24-29 | a number is returned unchanged; missing input and the empty string give 0; other text gives the number its cleaned form reads as, and 0 when that reading is NaN |
| App.ParseCurrencyNoDigits | app.js:28 | non-empty text without a digit (`-`, `abc`, `R$ ,`) gives 0 |
| App.ParseCurrencyInnerMinus | app.js:28 | `1-2`, which is not one decimal literal, gives 0 |
| App.ParseCurrencyDecimal | app.js:27-28 | the text `a,b` (digit strings) parses to the decimal a.b: the first comma is the decimal point |
| App.ParseCurrencyIgnoresSeparators | app.js:27-28 | `R$ u.t,c` parses to the same value as `ut,c`: the currency prefix and one thousands point are ignored |
| App.DefaultData | app.js:95-104 | the default data has empty quotes, orders, clients, stock, receivables, payables and tills |
| App.Application.constructor | app.js:17 | a freshly started application holds the empty data |
| App.Application.LoadData | app.js:93-105 | stored data is taken as is; with nothing stored the data is the empty default |
| App.ModuleToLoad | app.js:112-116 | the module is `dashboard` exactly when the name is missing, empty, `"null"` or `dashboard`, and otherwise the name itself, never empty or `"null"` |
| App.ModuleTitle | app.js:216-227 | an unknown name is its own title; a known name gets one of the seven titles |
| App.TitlesDistinct | app.js:216-227 | the seven known modules have distinct, non-empty titles |
| App.ShownTitle | app.js:112-119 | the title shown after the null-module rule is never empty or `"null"`, and is `Dashboard` for the dashboard |
| App.TotalReceberSplit | app.js:246-249 | the receivables card plus the paid receivables is the sum of all receivables, each amount read as `Number(cr.valor) \|\| 0` |
| App.TotalReceberAppend | app.js:246-249 | a new receivable raises the card by its amount exactly when it is not paid; one whose amount is not a number leaves the card unchanged |
| App.TotalReceberIgnoresNaN | app.js:246-249 | the card equals the card of only the receivables with a numeric amount: a non-numeric amount counts as 0 |
| App.IsTodaySameDay | app.js:443-448 | `isToday` holds exactly when both readings fall on the same local calendar day |
| Auth.Wrap32 | modules/auth.js:17 | `h \|= 0` yields a signed 32-bit value, and leaves a value already in range unchanged |
| Auth.RollingHash | modules/auth.js:16-19 | the fallback hash is always a signed 32-bit value |
| Auth.RollingHashIsPoly | modules/auth.js:16-19 | the step-by-step hash equals the polynomial Σ code·31^k taken modulo 2^32 |
| Auth.FallbackHash | modules/auth.js:15-19 | the loop `h = ((h << 5) - h) + code; h \|= 0` returns the decimal text of the rolling hash |
| Auth.FindUser | modules/auth.js:24-28 | the index of the first user whose username or e-mail equals the trimmed, lower-cased query ignoring case, or -1 when none does |
| Auth.FindUserAfterUpdate | modules/auth.js:24-28 | rewriting a user's secrets without touching username or e-mail changes no lookup |
| Auth.RegisterOffline | modules/auth.js:79-97 | registration succeeds exactly when no cached user clashes on username or non-empty e-mail; it then appends exactly the new user, and otherwise changes nothing |
| Auth.Registration | modules/auth.js:30-33 | a missing username, password or e-mail is refused first; otherwise the offline registration decides |
| Auth.RegisterKeepsDistinct | modules/auth.js:79-97 | registering keeps the cached users free of clashes |
| Auth.Login | modules/auth.js:145-154 | login succeeds exactly when a user is found and the password hash matches; the two failures are told apart |
| Auth.RegisteredUserLogsIn | modules/auth.js:79-154 | a user just registered under a trimmed username logs in with it and the same password, provided no earlier user's e-mail equals that username ignoring case |
| Auth.AnswerReset | modules/auth.js:208-222 | the password changes exactly when the user is found and the recovery answer hashes to the stored one; only that record's password hash changes |
| Auth.LoginAfterResetByAnswer | modules/auth.js:208-222 | after a reset by recovery answer the new password logs in |
| Auth.Ttl | modules/auth.js:234 | a missing or zero `ttlMs` gives 15 minutes |
| Auth.RecoveryCode | modules/auth.js:232 | the recovery code is a six-digit number from 100000 to 999999 |
| Auth.CodeRequest | modules/auth.js:226-241 | a code is issued exactly when the user is found and has an e-mail; the record then stores the code's hash and the expiry `now + ttl`, and the returned code is six digits; otherwise the error is `user-or-email-not-found` and nothing changes |
| Auth.CodeReset | modules/auth.js:268-287 | a reset that does not succeed is a failure and leaves the user list unchanged |
| Auth.CodeResetOutcome | modules/auth.js:268-287 | the reset succeeds exactly when the user is found, code and new password are given, a code is stored and unexpired, and the code hashes to it; missing data, a missing or expired code and a wrong code each get their own error; success writes the new hash into the first record with the user's id and deletes both code fields |
| Auth.CodeWorksOnce | modules/auth.js:268-287 | after a successful code reset, every further code reset for that user fails and changes nothing |
| Auth.ResetWithStoredCode | modules/auth.js:268-287 | a matching, unexpired stored code resets the password, and the new password then logs in |
| Auth.RequestThenReset | modules/auth.js:226-287 | the code a request returns, used before it expires, resets the password, and the new password then logs in |
| Auth.AuthStore.constructor | modules/auth.js:6-21 | the store starts from the cached users, with no session, hashing with SHA-256 or the fallback |
| Auth.AuthStore.Register | modules/auth.js:30-97 | the cached list becomes the registration's result; clash-freedom is preserved; the session is untouched |
| Auth.AuthStore.LoginOffline | modules/auth.js:145-154 | the session is set to the user exactly on a successful login, and the user list is unchanged |
| Auth.AuthStore.ResetPasswordOffline | modules/auth.js:208-222 | the cached list becomes the result of the reset by recovery answer |
| Auth.AuthStore.RequestRecoveryCode | modules/auth.js:226-265 | the cached list becomes the result of the code request |
| Auth.AuthStore.ResetPasswordWithCode | modules/auth.js:268-287 | the cached list becomes the result of the code reset |
| Text.DigitsOnly | modules/clientes.js:458 | `replace(/\D/g, '')` keeps only decimal digits and never lengthens the text |
| Text.DigitsOnlyConcat | modules/clientes.js:458 | the digit filter distributes over concatenation |
| Text.NatToDigitsRoundTrip | modules/orcamentos.js:320 | reading back the decimal text of a natural number gives the number |
| Text.PadStart | modules/orcamentos.js:320 | `padStart` fills in front up to the width and keeps the text as the suffix |
| Text.ZeroPadKeepsValue | modules/orcamentos.js:320 | zero-padding a digit string keeps its value |
| Text.Trim | modules/auth.js:25 | the trimmed text neither starts nor ends with whitespace |
| Text.Lower | modules/auth.js:25 | lower-casing keeps the length and maps each character on its own |
| Text.LowerIdempotent | modules/auth.js:25 | lower-casing twice is lower-casing once |
| Text.Numbered | modules/orcamentos.js:318-322 | a document number starts with its prefix and is at least five characters longer |
| Text.NumberedCounter | modules/orcamentos.js:318-322 | the counter part of a document number reads back as the counter |
| Text.NumberedInjective | modules/orcamentos.js:318-322 | within one prefix and year, different counters give different numbers |
| Numbers.ParseFloat | modules/estoque.js:159-162 | `parseFloat` is `NaN` exactly when the text starts with neither an integer part nor a fraction |
| Numbers.NumberOf | app.js:28 | `Number` reads the empty text as 0, and gives a number only when the whole text is consumed |
| Numbers.ReplaceFirstCharAfter | app.js:28 | `replace` with a one-character pattern rewrites only the first occurrence |
| Numbers.ParseToFixed2 | modules/orcamentos.js:238 | parsing back the `toFixed(2)` text that a row total holds gives the value rounded to cents |
| Numbers.Round2Close | modules/orcamentos.js:204 | rounding to cents moves a value by at most half a cent |
| Sorting.Sort | modules/relatorios.js:361 | sorting returns a permutation of its input |
| Sorting.SortSorted | modules/relatorios.js:361 | under a total preorder the result is ordered by the comparator |
| Sorting.SortByKeyDesc | modules/relatorios.js:424 | sorting with `(a, b) => key(b) - key(a)` puts larger keys first |
| Sorting.InsertTies | modules/relatorios.js:361 | inserting into a sorted list places the new element after every element the comparator ties with it |
| Sorting.SortStable | modules/relatorios.js:361 | the sort is stable: the elements the comparator ties with any given element keep their relative order |
| Records.FirstIndex | modules/financeiro.js:708 | `findIndex` returns the first position that satisfies the test, or -1 when none does |
| Records.UpsertExisting | modules/financeiro.js:708-713 | saving a record whose id exists replaces the first record with that id and changes no other position |
| Records.UpsertNew | modules/financeiro.js:708-713 | saving a record with a new id appends it |
| Records.FindAfterUpsert | modules/financeiro.js:708-713 | after a save, looking the id up finds the saved record |
| Records.UpsertKeepsOtherLookups | modules/financeiro.js:708-713 | a save leaves the lookup of every other id unchanged |
| Records.UpsertKeepsKeysUnique | modules/financeiro.js:708-713 | a save keeps ids unique |
| Records.Remove | modules/financeiro.js:1006-1007 | `filter(c => c.id !== id)` keeps exactly the records with another id |
| Records.FindAfterRemove | modules/financeiro.js:1006-1007 | after a delete, the id is no longer found |
| Records.RemoveAbsent | modules/financeiro.js:1006-1007 | deleting an absent id changes nothing |
| Records.RemoveAfterUpsert | modules/financeiro.js:1006-1007 | deleting a record just saved leaves the same list as deleting its id before the save |
| Records.Count | modules/os.js:456-458 | `filter(...).length` is zero exactly when no record satisfies the test |
| Records.CountComplement | modules/relatorios.js:533-539 | the records that satisfy a test and those that fail it add up to the whole list |
| Records.Filter | app.js:247-248 | `filter` keeps exactly the records that satisfy the test |
| Calendar.SameDayIffSameDate | app.js:443-448 | two readings fall on the same day number exactly when date, month and year agree |
| Calendar.WeekDay | modules/relatorios.js:154 | `getDay()` is between 0 and 6 |
| Financeiro.RunIsEntradasMinusSaidas | modules/financeiro.js:1229-1235 | the running balance of a till is its start plus the inflows minus the outflows of the closing report; a NaN amount makes both sides NaN |
| Financeiro.RunIsNaN | modules/financeiro.js:785-790 | a running balance that starts as a number becomes NaN exactly when some movement has a NaN amount |
| Financeiro.NovoCaixa | modules/financeiro.js:1183-1190 | a new till is open, has no movements, and its running balance is its (numeric) opening balance |
| Financeiro.Post | modules/financeiro.js:1381-1387 | posting changes only the last till, which stays open |
| Financeiro.AbrirKeepsValid | modules/financeiro.js:1170-1197 | opening keeps only the last till open and every open till balanced; with an answer and no open till, a till is then open |
| Financeiro.FecharKeepsValid | modules/financeiro.js:1199-1219 | closing keeps the tills valid and leaves none open |
| Financeiro.PostKeepsValid | modules/financeiro.js:1381-1387 | a posted movement keeps the open till's running balance equal to its opening balance moved by all its movements, NaN included |
| Financeiro.GerarRelatorioFechamento | modules/financeiro.js:1221-1236 | the loop totals the inflows and outflows (NaN when one of their amounts is), and the difference is the stored balance minus the balance the movements give |
| Financeiro.ClosingDifference | modules/financeiro.js:1209-1236 | the difference reported at closing is the counted amount minus the running balance before closing, and NaN when that balance is |
| Financeiro.StatusAoSalvar | modules/financeiro.js:692-701 | an account is `pago` exactly when it has a payment date or was chosen as paid; it is `atrasado` exactly when unpaid and chosen late, or pending and past due; otherwise the chosen status is kept |
| Financeiro.BuildConta | modules/financeiro.js:677-701 | the saved account keeps the form's id or takes a fresh one, keeps the form's amount as `parseFloat` read it (NaN included), and carries the derived status |
| Financeiro.AutoMov | modules/financeiro.js:771-782 | the automatic movement carries the account's id and amount: an inflow for receivables, an outflow for payables |
| Financeiro.AutoPostOnce | modules/financeiro.js:765-766 | once an account is posted to the open till, it cannot be posted there again |
| Financeiro.ManualMov | modules/financeiro.js:1369-1378 | a manual movement carries the form's kind and amount and no account, and is not automatic |
| Financeiro.ManualMovDoesNotBlock | modules/financeiro.js:765-766 | a manual movement never blocks the automatic posting of an account |
| Financeiro.SumDueGrowsWithHorizon | modules/financeiro.js:545-573 | with non-negative amounts, when the later horizon gives a number so does the earlier one, and it is no larger |
| Financeiro.SumDueIsNaN | modules/financeiro.js:552-569 | the amount due is NaN exactly when some unpaid account due by the horizon has a NaN amount |
| Financeiro.SumDueAfterPaying | modules/financeiro.js:545-573 | paying an account takes exactly its amount out of the amount due when it was due, and nothing otherwise: adding it back gives the old amount, NaN included |
| Financeiro.FindClienteByName | modules/financeiro.js:956-960 | the client found has the account's name ignoring case; when none is found, no client has it |
| Financeiro.Referencia | modules/financeiro.js:977 | the slip reference starts with `FIN-` |
| Financeiro.BoletoRequestFor | modules/financeiro.js:968-985 | the slip request carries the account's amount, due date and reference, and the payer's name and digit-only document |
| Financeiro.Ledger.constructor | app.js:100-104 | a new ledger has no accounts and no tills |
| Financeiro.Ledger.AbrirCaixa | modules/financeiro.js:1170-1197 | a till is opened exactly when none is open and the prompt was answered; the accounts are untouched and the tills stay valid |
| Financeiro.Ledger.FecharCaixa | modules/financeiro.js:1199-1219 | the open till is closed exactly when there is one and the prompt was answered; the tills stay valid |
| Financeiro.Ledger.SaveMovimentacao | modules/financeiro.js:1360-1396 | a manual movement is posted exactly when a till is open, keeping the running balance |
| Financeiro.Ledger.RegistrarMovimentacaoCaixa | modules/financeiro.js:750-794 | an account is posted exactly when a till is open and that till has no movement for the account yet |
| Financeiro.Ledger.SaveConta | modules/financeiro.js:666-739 | the account is replaced by id or appended in its own list; the other list is unchanged; an account with a payment date is posted to the till at most once |
| Financeiro.Ledger.DeleteConta | modules/financeiro.js:1001-1007 | exactly the accounts with that id leave the chosen list; the other list and the tills are unchanged |
| Financeiro.Ledger.CalcularSaldoPrevisto | modules/financeiro.js:545-573 | the projected balance is the unpaid receivables minus the unpaid payables due by the horizon, NaN when one of those amounts is NaN |
| Financeiro.Ledger.EmitirBoletoParaConta | modules/financeiro.js:962-999 | a client without a document stops the issuance; otherwise the slip is attached to the account exactly when the provider answers; payables and tills are untouched |
| Server.MakeLinhaDigitavel | server/server.js:27-31 | the mock digitable line has 54 characters |
| Server.BarcodeOfLinha | server/server.js:27-31 | stripping the separators of the mock digitable line gives back its 47 digits |
| Server.FallbackFromEnv | server/server.js:49-56 | every fallback address field is non-empty and the postal code is digits only |
| Server.RoundToCents | server/server.js:69 | `Math.round(x * 100)` is within half a cent of 100·x |
| Server.AmountInCents | server/server.js:69 | the amount in cents exists exactly when the value is numeric, and is within half a cent of it |
| Server.Line1 | server/server.js:78 | the first instruction line is the instructions cut to 100 characters |
| Server.HolderAddress | server/server.js:86-94 | each address field is the payer's value or the fallback's, and the postal code is digits only |
| Server.BuildPagBankPayload | server/server.js:59-106 | the payload is refused exactly when the value, the due date or the payer is missing; otherwise it has a digit-only tax id, the amount in cents and the first non-empty reference |
| Server.PayloadAddressFilled | server/server.js:86-94 | with the fallback address every address field of the payload is non-empty |
| Server.FromCharge | server/server.js:134-143 | an issued charge's record has the provider's id, and its status defaults to `emitido` |
| Server.FromConsult | server/server.js:158-167 | a consulted charge's record has the provider's id and status |
| Server.MergeOverrides | server/server.js:238 | `{ ...cached, ...remote }` takes every provider field and keeps every other cached field |
| Server.ChargeError | server/server.js:128 | the provider's error text ends with the provider's response body |
| Server.MockRecord | server/server.js:198-217 | a mock slip is `emitido`, provider `MOCK`, with the digits of its line as barcode |
| Server.BoletoStore.constructor | server/server.js:34-41 | the slip store starts empty, with the provider choice and token taken from the configuration |
| Server.BoletoStore.Issue | server/server.js:185-230 | invalid input is refused with 400; the mock path stores a new record under its id; the provider path stores the charge, or answers 500 when there is no token or the provider fails; ids stay keyed |
| Server.BoletoStore.Query | server/server.js:233-247 | a provider answer is merged over the cache and stored; otherwise the cached record is returned, or 404 |
| Server.BoletoStore.Cancel | server/server.js:250-271 | an unknown id gives 404 and a paid slip 400; a provider failure gives 500 and leaves the store unchanged; a mock cancel marks the record `cancelado` |
| Server.BoletoStore.Webhook | server/server.js:274-284 | a missing id gives 400; otherwise the record under the id is replaced, and created as a placeholder when unknown |
| Server.WebhookRecord | server/server.js:276-282 | a `PAID`/`paid` notification makes the record `pago`; any other keeps its status, or `desconhecido` for an unknown id |
| Server.PaidStaysPaid | server/server.js:276-282 | no webhook takes a paid slip out of `pago` |
| Server.UserStore.Register | server/server.js:289-333 | missing fields give 400; a clash on username or non-empty e-mail, ignoring case, gives 409 and changes nothing; otherwise the user is stored with hashed password and hashed, normalised answer |
| Server.UserStore.Login | server/server.js:339-373 | a missing field gives 400; login succeeds exactly when the first user matching the query has the password's hash; otherwise 401 |
| Server.UserStore.constructor | server/server.js:36 | the user store starts empty |
| Server.LoginFindsNewUser | server/server.js:345-349 | a registered user whom no earlier user shadows is found by their username |
| Server.EmailShadowsUsername | server/server.js:299-302 | the clash test lets a username equal an earlier user's e-mail, and login by that text then finds the earlier user |
| Clientes.CpfCheckDigit | modules/clientes.js:564-565 | a CPF check digit is below 10 |
| Clientes.ValidarCpf | modules/clientes.js:540-569 | the loops accept exactly the CPFs whose digits pass the length, repeated-digit and two mod-11 checks |
| Clientes.CpfComplete | modules/clientes.js:540-569 | appending the two computed check digits to a nine-digit base gives eleven digits that start with the base |
| Clientes.CpfCompleteIsValid | modules/clientes.js:540-569 | a base completed with its check digits is a valid CPF unless all digits are equal |
| Clientes.CpfDeterminedByBase | modules/clientes.js:540-569 | a valid CPF is its first nine digits completed with their check digits |
| Clientes.CnpjCheckDigit | modules/clientes.js:591 | a CNPJ check digit is below 10 |
| Clientes.CnpjWeightStep | modules/clientes.js:587-588 | the weight steps down by one and wraps from 2 back to 9 |
| Clientes.CnpjSum | modules/clientes.js:583-589 | the weighted loop computes the CNPJ weighted sum |
| Clientes.ValidarCnpj | modules/clientes.js:571-609 | the loops accept exactly the CNPJs whose digits pass the length, repeated-digit and two mod-11 checks |
| Clientes.CnpjComplete | modules/clientes.js:571-609 | appending the two computed check digits to a twelve-digit base gives fourteen digits that start with the base |
| Clientes.CnpjCompleteIsValid | modules/clientes.js:571-609 | a base completed with its check digits is a valid CNPJ unless all digits are equal |
| Clientes.CnpjDeterminedByBase | modules/clientes.js:571-609 | a valid CNPJ is its first twelve digits completed with their check digits |
| Clientes.ValidarDocumento | modules/clientes.js:531-538 | `pf` documents are checked as CPF, `pj` as CNPJ, and any other kind is refused |
| Clientes.ValidarEmailMatchesPattern | modules/clientes.js:611-614 | the scan accepts exactly the texts of the form a@b.c with a, b, c non-empty and free of blanks and `@` |
| Clientes.ScanImpliesPattern | modules/clientes.js:611-614 | a text the scan accepts has the form a@b.c |
| Clientes.PatternImpliesScan | modules/clientes.js:611-614 | every text of the form a@b.c, with a, b, c non-empty and free of blanks and `@`, is accepted |
| Clientes.FormatCep | modules/clientes.js:399-408 | the digits are kept, and a hyphen goes after the fifth digit exactly when there are six to eight digits |
| Clientes.FormatCepKeepsDigits | modules/clientes.js:399-408 | formatting never changes the digits of a CEP |
| Clientes.FormatCepIdempotent | modules/clientes.js:399-408 | formatting a formatted CEP changes nothing |
| Clientes.StripMarks | modules/clientes.js:675 | no combining mark (U+0300 to U+036F) is left |
| Clientes.NormalizeText | modules/clientes.js:667-678 | a missing text normalises to the empty text; the result has no combining marks and no capitals, and no blank at either end |
| Clientes.BuildCliente | modules/clientes.js:467-515 | the saved client has the form's id or a fresh one and the digit-only document; its totals are always numbers: zero for a new client, the stored totals with a missing or NaN one read as 0 for an edited one, which also keeps its registration date; the type-specific fields follow the type |
| Clientes.ClienteStore.SaveCliente | modules/clientes.js:453-530 | an invalid document or a non-empty invalid e-mail is refused and changes nothing; otherwise the client is replaced by id or appended |
| Clientes.SavedClienteIsFound | modules/clientes.js:517-523 | after a save, looking the client's id up finds the saved client |
| Estoque.BuildItem | modules/estoque.js:153-166 | the saved item keeps the form's id or takes a fresh one, keeps its quantities, and has cost 0 when none was given |
| Estoque.EstoqueStore.SaveItem | modules/estoque.js:147-176 | the item is replaced by id or appended |
| Estoque.EstoqueStore.DeleteItem | modules/estoque.js:196-203 | a confirmed delete removes exactly the items with that id; a refused one changes nothing |
| Estoque.Categories | modules/estoque.js:217 | the categories are distinct, non-empty and exactly those of the items |
| Estoque.CategoriesInFirstAppearanceOrder | modules/estoque.js:217 | the categories come in the order of their first appearance |
| Estoque.RenderOrderSortedByNome | modules/estoque.js:289 | the rendered list is a permutation of the stock, ordered by name |
| Estoque.CountLow | modules/estoque.js:306-307 | the low-stock count is zero exactly when no item is at or below its minimum |
| Estoque.CountLowSort | modules/estoque.js:289-307 | sorting for display does not change how many items are flagged low |
| Orcamentos.RowTotal | modules/orcamentos.js:201-205 | a row total is within half a cent of quantity times unit price |
| Orcamentos.AcceptedItems | modules/orcamentos.js:256-270 | every kept item has a description and a positive quantity and unit price |
| Orcamentos.CollectItens | modules/orcamentos.js:256-270 | the loop collects exactly the accepted rows, in order |
| Orcamentos.AcceptedItemsEmpty | modules/orcamentos.js:272-277 | no item is collected exactly when no row is accepted |
| Orcamentos.AcceptedRowIsKept | modules/orcamentos.js:264-269 | every accepted row becomes an item |
| Orcamentos.SubtotalSplitsByAcceptance | modules/orcamentos.js:234-270 | the on-screen subtotal is the saved items' totals plus the totals of the rejected rows |
| Orcamentos.SubtotalOfAcceptedRows | modules/orcamentos.js:234-270 | when every row is accepted, the subtotal is the sum of the saved items' totals |
| Orcamentos.CalcularTotal | modules/orcamentos.js:234-249 | the subtotal is the sum of the row totals; the discount is that percentage of it; the total is the subtotal minus the discount |
| Orcamentos.DiscountWithinSubtotal | modules/orcamentos.js:242-244 | a discount between 0 and 100 percent gives a total between 0 and the subtotal |
| Orcamentos.StoredAmountAsWrittenIsCents | modules/orcamentos.js:289-291 | re-parsing the displayed amount as written gives 100 times the amount rounded to cents |
| Orcamentos.AsWrittenFixedText | modules/orcamentos.js:289-291 | the as-written re-parse of `R$ ` followed by a cents text gives the number of cents |
| Orcamentos.StoredAmountAsWrittenExample | modules/orcamentos.js:289-291 | a displayed R$ 12.50 is stored as 1250; the corrected parse stores 12.5 |
| Orcamentos.StoredAmountIsDisplayed | modules/orcamentos.js:289-291 | the corrected re-parse of the displayed amount gives the amount rounded to cents |
| Orcamentos.GetNumero | modules/orcamentos.js:324-327 | an existing quote keeps its number; an unknown id gets a freshly generated one |
| Orcamentos.GeneratedNumbersDiffer | modules/orcamentos.js:318-322 | lists of different lengths generate different quote numbers in the same year |
| Orcamentos.BuildOrcamento | modules/orcamentos.js:280-301 | the quote built with the corrected reading holds the collected items, the displayed subtotal and total rounded to cents, the discount `\|\| 0`, a payment term defaulting to 7, a new number for a new quote, and the old number and creation date for an edit |
| Orcamentos.BuildOrcamentoAsWritten | modules/orcamentos.js:280-301 | the quote as lines 289 and 291 build it stores as subtotal and total 100 times the displayed amounts rounded to cents |
| Orcamentos.AsWrittenDiffersOnlyInAmounts | modules/orcamentos.js:280-301 | the quote as written and the corrected quote agree in every field but the subtotal and the total |
| Orcamentos.OrcamentoStore.SaveOrcamento | modules/orcamentos.js:251-316 | the quote is saved exactly when some row is accepted; it is then built from the accepted items and the displayed totals and replaced by id or appended |
| Orcamentos.OrcamentoStore.DeleteOrcamento | modules/orcamentos.js:329-335 | a confirmed delete removes exactly the quotes with that id |
| Orcamentos.TabStrip.constructor | modules/orcamentos.js:3-4 | the form starts on the first of its three tabs |
| Orcamentos.TabStrip.SwitchTab | modules/orcamentos.js:122-144 | the current tab becomes the position of the name, or -1 for an unknown name |
| Orcamentos.TabStrip.PrevTab | modules/orcamentos.js:146-150 | going back moves one tab left, except from the first tab |
| Orcamentos.TabStrip.NextTab | modules/orcamentos.js:152-156 | going forward moves one tab right, except from the last tab |
| Orcamentos.FormatPagamento | modules/orcamentos.js:493-503 | a payment code is replaced by its label exactly when it is one of the six known codes |
| Orcamentos.PaymentLabelsDistinct | modules/orcamentos.js:493-503 | the six payment methods have distinct labels |
| Orcamentos.FormatPagamentoIdempotent | modules/orcamentos.js:493-503 | formatting a label again changes nothing |
| Ordens.KeptEtapas | modules/os.js:373-386 | the kept steps are exactly the rows with a description, stamped with the save time |
| Ordens.CollectEtapas | modules/os.js:373-386 | the loop collects exactly those steps |
| Ordens.RoundRatio | modules/os.js:391 | `Math.round(n / d)` is the nearest integer, rounding halves up |
| Ordens.Progresso | modules/os.js:388-391 | progress is the rounded percentage of finished steps, between 0 and 100, and 0 without steps |
| Ordens.ProgressoExtremes | modules/os.js:388-391 | all steps finished gives 100, and none finished gives 0 |
| Ordens.CalcularDataConclusao | modules/os.js:293-303 | a completion date is set exactly when there is a start date and a positive term, and it falls after the start |
| Ordens.ConclusaoMatchesSavedPrazo | modules/os.js:293-303 | the completion date is the start plus the term that the save stores |
| Ordens.BuildOS | modules/os.js:393-421 | the saved order has the collected steps, their progress, a term defaulting to 7, an amount defaulting to 0, and the overdue flag of its due date |
| Ordens.SavedFlagMatchesStatistics | modules/os.js:419-421 | the flag stored at save time agrees with the overdue count of the statistics at the same instant |
| Ordens.OSStore.SaveOS | modules/os.js:368-440 | the order built from the kept steps is replaced by id or appended |
| Ordens.OSStore.DeleteOS | modules/os.js:442-449 | a confirmed delete removes exactly the orders with that id |
| Ordens.OSStore.MarcarComoConcluida | modules/os.js:726-747 | a confirmed completion finishes the first order with that id and all its steps; nothing else changes |
| Ordens.AllConcluidas | modules/os.js:734-738 | every step becomes finished and keeps its description and date |
| Ordens.ConcluidaIsSettled | modules/os.js:726-747 | a completed order is never counted overdue, and its progress agrees with its steps |
| Ordens.CarregarEstatisticas | modules/os.js:451-476 | orders in progress are among the open ones, and no count exceeds the number of orders |
| Ordens.ConcluirReducesAtrasadas | modules/os.js:462-468 | completing an order lowers the overdue count by one exactly when that order was overdue |
| Ordens.PesoPrioridade | modules/os.js:588-596 | a priority weighs between 0 and 4, and weighs 0 exactly when it is none of `urgente`, `alta`, `media` and `baixa` |
| Ordens.ComesBeforeIsPreorder | modules/os.js:586-604 | the list comparator is a total preorder |
| Ordens.RenderOrder | modules/os.js:586-604 | the listed orders are a permutation, by priority, then most recent opening first |
| Ordens.NumeroOSCounter | modules/os.js:241-244 | an order number is `OS`, the year, then the list length plus one |
| Relatorios.FiltrarPorPeriodo | modules/relatorios.js:598-605 | without both bounds the data is unchanged; with them, exactly the records dated within the bounds are kept |
| Relatorios.FiltrarKeepsOrder | modules/relatorios.js:598-605 | filtering distributes over concatenation, so it keeps order |
| Relatorios.FiltrarWidePeriod | modules/relatorios.js:598-605 | a period containing every date keeps everything |
| Relatorios.HojeCovers | modules/relatorios.js:148-151 | the `hoje` period contains the current instant |
| Relatorios.SemanaCovers | modules/relatorios.js:153-163 | the week starts on a Monday at midnight, lasts seven days less a millisecond, and contains the current instant |
| Relatorios.MesCovers | modules/relatorios.js:165-188 | the month period, and the default, contain the current instant |
| Relatorios.TrimestreCovers | modules/relatorios.js:170-174 | the quarter contains the current instant |
| Relatorios.SemestreCovers | modules/relatorios.js:176-180 | the half-year contains the current instant |
| Relatorios.AnoCovers | modules/relatorios.js:181-184 | the year contains the current instant |
| Relatorios.MesesCover | modules/relatorios.js:165-184 | a run of whole months from month a to month b of this year contains the current instant when the current month lies in it |
| Relatorios.PeriodContainsToday | modules/relatorios.js:143-192 | every period contains the current instant |
| Relatorios.Bump | modules/relatorios.js:348 | `obj[k] = (obj[k] \|\| 0) + v` updates the entry for k and keeps the keys distinct |
| Relatorios.BumpOther | modules/relatorios.js:348 | that update leaves every other key unchanged |
| Relatorios.BumpSum | modules/relatorios.js:348 | that update raises the sum of all entries by v |
| Relatorios.MaiorIsMax | modules/relatorios.js:332 | `maiorVenda` is at least 0 and every sale, and is 0 or one of the sales |
| Relatorios.MenorIsMin | modules/relatorios.js:333 | `menorVenda` is absent (Infinity) exactly when there are no sales, and is otherwise the least sale |
| Relatorios.GroupByUnique | modules/relatorios.js:347-352 | the grouped totals have distinct keys |
| Relatorios.GroupByHas | modules/relatorios.js:347-352 | a key is present exactly when some sale has it |
| Relatorios.GroupByValue | modules/relatorios.js:347-352 | each key's total is the sum of the sales with that key |
| Relatorios.GroupBySum | modules/relatorios.js:347-352 | the grouped totals add up to the total sales |
| Relatorios.Media | modules/relatorios.js:356-358 | the mean times the count is the total; there is no mean without sales |
| Relatorios.MediaBetween | modules/relatorios.js:329-358 | the mean sale lies between the least and the greatest sale |
| Relatorios.MediaBounded | modules/relatorios.js:356-358 | when every sale lies between two bounds, so does the mean |
| Relatorios.VendasRows | modules/relatorios.js:336-344 | one sale row per quote, in order |
| Relatorios.AcumularVenda | modules/relatorios.js:325-352 | one turn of the callback adds the quote's total to the sum, counts it, raises the greatest or lowers the least when the total passes them, appends its row and adds its total to its payment method's and its client's group |
| Relatorios.AcumularIsAcumuladoDe | modules/relatorios.js:325-352 | the turns, from the initial values, reach the sum, count, greatest, least, rows and both groupings of the quotes |
| Relatorios.AcumularVendas | modules/relatorios.js:325-353 | the loop computes the total, count, greatest, least, rows and both groupings of the filtered quotes |
| Relatorios.GerarRelatorioVendas | modules/relatorios.js:308-365 | the sales report summarises the quotes of the period, groups them by payment method and client, and lists the sales newest first |
| Relatorios.RelatorioVendasFacts | modules/relatorios.js:308-365 | in the sales report the mean is between least and greatest, both groupings add up to the total, and the rows are a permutation ordered newest first |
| Relatorios.SituacaoOf | modules/relatorios.js:403-404 | an item is `baixo` exactly when at or below its minimum, and `esgotado` exactly when not low and at zero |
| Relatorios.EsgotadoOnlyWithoutMinimum | modules/relatorios.js:403-404 | `esgotado` is shown only for an item at zero with no minimum or a negative one |
| Relatorios.ValorItem | modules/relatorios.js:381 | an item's value is numeric exactly when quantity and price are |
| Numbers.AddNumbers | modules/relatorios.js:384 | a sum is numeric exactly when both terms are |
| Numbers.SubNumbers | modules/financeiro.js:567 | a difference is numeric exactly when both terms are |
| Relatorios.SomaValoresIsSum | modules/relatorios.js:384 | the stock value is numeric exactly when every item's value is, and is then their sum |
| Relatorios.LinhasRows | modules/relatorios.js:395-405 | one row per item, in stock order |
| Relatorios.BaixoLinhasFacts | modules/relatorios.js:408-416 | the low-stock rows are as many as the low items, and each has a non-negative shortfall |
| Relatorios.PorCategoriaKeys | modules/relatorios.js:419-420 | the category totals have distinct keys, exactly the items' categories |
| Relatorios.AcumularEstoque | modules/relatorios.js:380-421 | the loop computes the stock value, both counts, the rows, the low-stock rows and the category totals |
| Relatorios.GerarRelatorioEstoque | modules/relatorios.js:367-428 | the stock report summarises the items and lists them by value, largest first |
| Relatorios.EstoqueRowsByValue | modules/relatorios.js:424 | the item rows are a permutation ordered by value, largest first |
| Relatorios.SemEstoqueCountedLow | modules/relatorios.js:386-392 | with non-negative minimums every item at zero is also counted low |
| Relatorios.AddCompraFacts | modules/relatorios.js:502-522 | one step of the client map keeps names distinct, ensures the quote's client is present, and appends at most that client |
| Relatorios.AddCompraAt | modules/relatorios.js:502-518 | one step adds the quote to its client's total and count, creates the client with that quote when new, and leaves every other client unchanged |
| Relatorios.AddCompraDates | modules/relatorios.js:511-522 | one step keeps the quote's date between the client's first and last order dates, and only widens them |
| Relatorios.ClientesValidity | modules/relatorios.js:501-523 | the client list has distinct names, and each client has at least one quote and a first order date not after the last |
| Relatorios.ClientesCover | modules/relatorios.js:501-523 | every quote's client appears in the client list |
| Relatorios.ClientesFromQuotes | modules/relatorios.js:501-523 | every client in the list comes from some quote |
| Relatorios.ClienteTotal | modules/relatorios.js:516-517 | each client's total is the sum of their quotes, and their count is the number of their quotes |
| Relatorios.ClienteDates | modules/relatorios.js:520-522 | each client's first and last order dates bound the dates of all their quotes |
| Relatorios.ClientesCompras | modules/relatorios.js:501-523 | the client totals add up to the sum of all quotes |
| Relatorios.ClientesPedidos | modules/relatorios.js:501-523 | the client counts add up to the number of quotes |
| Relatorios.TopClientes | modules/relatorios.js:541-544 | the top list holds at most ten clients, exactly ten when there are that many, from the clients, ordered by total spent |
| Relatorios.ColetarClientes | modules/relatorios.js:499-526 | the loop builds the client list in first-appearance order |
| Relatorios.ContarAtivos | modules/relatorios.js:529-539 | the loop counts the active and inactive clients, which add up to all clients |
| Relatorios.GerarRelatorioClientes | modules/relatorios.js:487-548 | the client report lists the clients, counts those active in the last 30 days and the rest, and takes the top ten |
| Relatorios.Margem | modules/relatorios.js:591-592 | the margin is 0 without revenue; otherwise it is non-negative exactly when expenses do not exceed revenue, and at most 100 with non-negative expenses |
| Relatorios.ReceitasSum | modules/relatorios.js:564-572 | the revenue rows add up to the revenue total |
| Relatorios.DespesasSum | modules/relatorios.js:578-586 | the expense rows add up to the expense total |
| Relatorios.SomarReceitas | modules/relatorios.js:564-572 | the loop totals the revenue and builds one row per quote |
| Relatorios.ReceitasRows | modules/relatorios.js:566-571 | one revenue row per quote, in order |
| Relatorios.SomarDespesas | modules/relatorios.js:578-586 | the loop totals the expenses and builds one row per payable |
| Relatorios.DespesasRows | modules/relatorios.js:580-585 | one expense row per payable, in order |
| Relatorios.ReceitasDoPeriodo | modules/relatorios.js:561-562 | revenue counts only approved or finished quotes |
| Relatorios.DespesasDoPeriodo | modules/relatorios.js:575-576 | without a payables list there are no expenses; otherwise every expense is one of the payables |
| Relatorios.GerarRelatorioLucroPrejuizo | modules/relatorios.js:550-596 | profit is revenue minus expenses, and the margin follows it |

## Left out

- Floating point: money is exact `real`. Sums, `toFixed` and `Math.round` are exact
  here; IEEE rounding, `-0` and values beyond 2^53 are not modelled.
- `NaN` and `undefined`: an unreadable number is `None`, `x || 0` is `OrZero`, and
  `+` and `-` on such numbers are `Numbers.AddNumbers` and `Numbers.SubNumbers`.
  `NaN`'s behaviour in comparisons and sorting is not modelled; the sort comparators
  assume numeric keys.
- Relatorios.Valor: a quote without a numeric `total` counts as 0 in the sales,
  client and profit reports. The code adds `orc.total` as it is
  (modules/relatorios.js:326-329, 517 and 565), so such a quote would make
  `totalVendas`, the groupings, the mean, the client totals and the revenue NaN.
  Every quote `saveOrcamento` stores has a numeric total (Orcamentos.BuildOrcamento),
  so only stored records that lack one are affected.
- Orcamentos.OrcamentoStore.SaveOrcamento: stores the corrected amounts of
  Orcamentos.BuildOrcamento. The code as written stores the amounts of
  Orcamentos.BuildOrcamentoAsWritten, 100 times the displayed ones (see "Findings").
- Time zones and daylight saving: every instant lies on the local time line, so a
  day always lasts 24 hours. The offset to UTC and days of 23 or 25 hours are not
  modelled, and neither are invalid dates. `setDate` arithmetic is day arithmetic
  on that line.
- `Date` parsing: each record's date text reaches the model through an `instant`
  parameter (text to milliseconds), never parsed here.
- Numbers.ParseFloat: accepts an optional sign, digits and an optional fraction.
  Exponents, `Infinity`, leading whitespace and a leading `+` are not modelled.
- App.ParseCurrencyValue: booleans, objects and other non-string, non-number inputs
  are not modelled. `Number` of text is modelled without exponent or whitespace forms.
- App.Application.LoadData: takes the already-parsed stored value; `JSON.parse`
  errors and `localStorage` are not modelled, and neither is `saveData`.
- Text.Lower: upper case is mapped for ASCII and Latin-1 only.
- Strings are sequences of Unicode scalar values. JavaScript counts UTF-16 code
  units, so lengths and slices differ for characters outside the Basic
  Multilingual Plane; that difference is not modelled. `localeCompare` is an
  abstract total preorder, and NFD normalisation is a function parameter.
- Object keys: `titles[...]`, `formas[...]`, `clientesMap` and the grouping objects
  are modelled as lookups on their own keys. Inherited prototype keys such as
  `constructor`, and the enumeration order of integer-like keys in
  `Object.values`, are not modelled.
- The 300 ms `setTimeout` flag `_savingConta` in `saveConta` is not modelled.
  Re-entrant saves are treated as sequential.
- DOM, rendering, `alert`, `confirm` and `prompt`: a confirmation or a prompt answer
  is a parameter. Charts, printing, CSV and PDF export, clipboard and the
  DOM-based filters are not modelled.
- Network: PagBank's answers reach the model as parameters. The recovery
  e-mail's delivery is the `sent` flag. modules/boleto.js and the ViaCEP lookup
  in modules/clientes.js are not modelled.
- Hashing: SHA-256 and WebCrypto are an uninterpreted function parameter.
- Auth.AuthStore: records created by older versions without a `username` or
  `email` field, and ids of other types than text, are not modelled.
- The production report (`gerarRelatorioProducao`), the financial report
  (`gerarRelatorioFinanceiro`), `calcularLucroMes`, the cash-flow projection,
  alerts and the dashboard's other cards are outside this model.
- App.TotalReceberSplit: receivables are always records, so the `cr &&` guard
  against `null` entries in the receivables list is not modelled.
- Relatorios.GerarRelatorioClientes: follows the code, which reads all quotes and
  ignores the period filter.
- server/server.js: the Express, CORS and logging setup, the process handlers and
  the `/api/auth/reset-password` and `/api/auth/recovery-question` handlers are not
  modelled.
- The Supabase and Postgres wrappers (api/auth/*.js, api/_supabase.js,
  utils/supabase/server.js, server/db.js), app/pagina/page.tsx, static_server.js
  and the test scripts are not part of this model.
- modules/auth.js: `getRecoveryQuestion` and the backend branch of each operation
  are network calls and are not modelled; only the offline paths are.

## Findings

| source | as written | input that shows it | evidently intended | confidence | as-written member | corrected member |
|---|---|---|---|---|---|---|
| modules/orcamentos.js:289-291 | the stored `subtotal` and `total` are re-read from the displayed `R$ x.yz` text with `.replace('.', '')` before `.replace(',', '.')`, which deletes the decimal point of the `toFixed(2)` text | a displayed subtotal of `R$ 12.50` is stored as 1250 | the stored amount equals the displayed amount, 12.5 | not executed | Orcamentos.StoredAmountAsWrittenIsCents, Orcamentos.BuildOrcamentoAsWritten | Orcamentos.StoredAmountIsDisplayed, Orcamentos.BuildOrcamento |
