# Financeiro — a verified model of its business rules

Financeiro is a small finance application for a chain of stores. It has a
Django back end and a Next.js front end. This project models the rules
that decide its numbers and its access control, and proves properties of
them:

- **Monthly closing.** Card fees are computed per sale item and rounded
  half-up to cents. The closing then derives net revenue and the
  operating result, and it is stored once per store and month.
- **Legacy sales import.** Payment descriptions are classified into
  payment tags, and each raw row is normalised.
- **Back-office tables.** Fees are looked up by card brand, with a
  fallback to the `GERAL` brand. The page also covers the competence-month
  expense sum, the category and expense CRUD with their 404 and 400 cases,
  the net-amount rule of expenses, and the closing upsert.
- **Mock authentication.** This covers login, Bearer header parsing,
  `me`, store switching, and the active-store permission guard.
- **Front-end state.** This covers the shared period and its month
  rollover, the `YYYY-MM` competence string, and the session context with
  `canEdit`. It also covers request headers and URLs in the API client,
  the expense form's validation and payload, and the expense list's total
  and status badges.

Amounts are exact decimals (`real`); within the 28 significant digits of
Python's default decimal context, `Decimal.quantize(…, ROUND_HALF_UP)` is
`Money.Round2`. Database tables are sequences held by
the class `Endpoints.Banco`, in primary-key order. JWTs are the abstract
record `Jwt.Token(userId, activeLojaId)`, and decoding is a function
parameter. Browser storage is the class `Navegador.Armazenamento`. Server
responses, the clock, JavaScript's `parseFloat` and `String(number)` are
parameters of the front-end operations that use them.

Modules, one per source file plus shared ones:

- `Wrappers` holds Option, Result and Outcome, and JavaScript/Python truthiness.
- `Text` holds upper-casing, strip, split/join, decimal numerals, first-occurrence replace and `padStart`.
- `Money`, `Services`, `VendasClient`, `Entidades`, `Endpoints` and `MockAuth` model the back end.
- `Security`, `Http` and `Jwt` model the request guard, HTTP errors and tokens.
- `FinanceiroContexto`, `SeletorPeriodo`, `Navegador`, `Api`, `AuthContexto`, `FormularioDespesa` and `PaginaDespesas` model the front end.

## Model

| member | source | states |
|---|---|---|
| Text.Upper | financeiro_core/infrastructure/vendas_client.py:21 | `upper()` maps each character and keeps the length |
| Text.UpperIdempotent | financeiro_core/infrastructure/vendas_client.py:21 | upper-casing twice is upper-casing once |
| Text.StripFatia | financeiro_core/infrastructure/vendas_client.py:106 | `strip()` keeps a middle slice of the text, with no whitespace left at either end |
| Text.TrimStartSufixo | financeiro_core/infrastructure/vendas_client.py:106 | dropping leading whitespace leaves a suffix of the text |
| Text.TrimEndPrefixo | financeiro_core/infrastructure/vendas_client.py:106 | dropping trailing whitespace leaves a prefix of the text |
| Text.ContainsStrip | financeiro_core/infrastructure/vendas_client.py:21 | `strip()` does not change whether a payment keyword occurs |
| Text.SplitJoin | financeiro-frontend/src/contexts/FinanceiroContext.tsx:39 | splitting a join of separator-free parts gives the parts back |
| Text.ParseNatToString | financeiro-frontend/src/contexts/FinanceiroContext.tsx:39 | `Number` reads back the decimal numeral of a natural number |
| Text.ParseIntToString | financeiro-frontend/src/components/DespesaForm.tsx:60 | `Number(String(id))` is the id, negative ids included |
| Text.ReplaceFirst | financeiro-frontend/src/components/DespesaForm.tsx:55 | only the first occurrence of the character is replaced; all other characters are kept |
| Text.PadStart2 | financeiro-frontend/src/contexts/FinanceiroContext.tsx:34 | `padStart(2, '0')`: the text is kept at the end, and only zeros are added, up to length 2 |
| Money.Round2 | financeiro_core/domain/services.py:53-56 | the result has two decimals and lies within half a cent of the input, with ties going away from zero |
| Money.Round2Unique | financeiro_core/domain/services.py:53-56 | any two-decimal value within half a cent (ties away from zero) is the rounded value |
| Money.Round2Idempotent | financeiro_core/domain/services.py:89-91 | rounding a value that already has two decimals changes nothing |
| Money.TwoDecimalsClosed | financeiro_core/domain/services.py:92 | sums and differences of two-decimal values have two decimals |
| Money.Round2Ties | financeiro_core/domain/services.py:56 | 0.005 rounds to 0.01, -0.005 rounds to -0.01, 2.675 rounds to 2.68 and 0.0049 rounds to 0 |
| Services.CustoItem | financeiro_core/domain/services.py:79-85 | an item's fee, value × rate/100 + fixed fee, is rounded to cents on its own |
| Services.SomaTaxas | financeiro_core/domain/services.py:70-85 | the fee total is a sum of per-item rounded fees, so it has two decimals |
| Services.CalcularLiquidoVendas | financeiro_core/domain/services.py:59-98 | the loop's gross total is the rounded sum of all items, fee or no fee; its fee total is the sum of per-item rounded fees; net = gross − fees, all in cents |
| Services.ExecutarFechamento | financeiro_core/domain/services.py:109-147 | gross, fees and net come from the sales calculation; expenses are the rounded repository sum; result = net − expenses = gross − fees − expenses |
| Services.SemTaxaNenhumCusto | financeiro_core/domain/services.py:75-87 | items with no applicable fee add nothing to the fee total |
| Services.SomaTaxasConcat | financeiro_core/domain/services.py:70-85 | the fee total of two batches is the sum of their fee totals |
| Services.ArredondamentoPorItem | financeiro_core/domain/services.py:84-85 | per-item rounding differs from rounding the sum: two 0.5% fees on 1.00 give 0.02, not 0.01 |
| VendasClient.MapearTipoPagamento | financeiro_core/infrastructure/vendas_client.py:13-41 | the result is always one of the six tags; an empty type gives OUTRO |
| VendasClient.MapearCaracterizacao | financeiro_core/infrastructure/vendas_client.py:21-41 | on the upper-cased text: DEBITO first; then the credit/card keywords give CREDITO_PARCELADO iff installments > 1, else CREDITO_AVISTA; then PIX, DINHEIRO, otherwise OUTRO |
| VendasClient.KeywordsStrip | financeiro_core/infrastructure/vendas_client.py:21 | stripping does not change which keywords occur |
| VendasClient.MapearIgnoraCaixa | financeiro_core/infrastructure/vendas_client.py:21 | classification ignores letter case |
| VendasClient.MapearIgnoraEspacos | financeiro_core/infrastructure/vendas_client.py:21 | classification ignores surrounding whitespace |
| VendasClient.DebitoPrevalece | financeiro_core/infrastructure/vendas_client.py:24-25 | "cartao debito" is DEBITO although it also contains CARTAO |
| VendasClient.DebitoAcentuado | financeiro_core/infrastructure/vendas_client.py:24-25 | the accented "CARTÃO DÉBITO" is DEBITO |
| VendasClient.CreditoAcentuado | financeiro_core/infrastructure/vendas_client.py:30-33 | "Crédito" is credit, in installments iff more than one |
| VendasClient.PixComEspacos | financeiro_core/infrastructure/vendas_client.py:35-36 | "  pix  " is PIX |
| VendasClient.NormalizarLinha | financeiro_core/infrastructure/vendas_client.py:95-113 | null type → OUTRO, null brand → GERAL, null value → 0; a given brand is upper-cased then stripped; installments 1, so never CREDITO_PARCELADO |
| VendasClient.BandeiraNormalizada | financeiro_core/infrastructure/vendas_client.py:106 | a normalised brand has no lower-case letter and no surrounding whitespace |
| VendasClient.FaturamentoDasLinhas | financeiro_core/infrastructure/vendas_client.py:94-114 | one item per row: the list is as long as the rows |
| VendasClient.FaturamentoDasLinhasPontual | financeiro_core/infrastructure/vendas_client.py:94-114 | item i is row i normalised, so the rows keep their order |
| VendasClient.NormalizarLinhas | financeiro_core/infrastructure/vendas_client.py:94-114 | the appending loop builds exactly the normalised rows |
| Entidades.PadroesDeCadastro | financeiro_core/app/models/entidades.py:13-73 | a new category is active; a new fee has brand GERAL, installments 1..1, fixed fee 0 and 1 day |
| Entidades.Salvar | financeiro_core/app/models/entidades.py:107-109 | after save, net = gross − discount + surcharge, and every other field is unchanged |
| Entidades.SalvarIdempotente | financeiro_core/app/models/entidades.py:107-109 | saving twice is saving once |
| Entidades.SalvarEmCentavos | financeiro_core/app/models/entidades.py:88-108 | cent amounts give a cent net amount |
| Entidades.NovaContaPagar | financeiro_core/app/models/entidades.py:83-109 | a created expense has the given fields and a consistent net amount |
| Entidades.NovaContaPagarPadrao | financeiro_core/app/models/entidades.py:89-108 | with the defaults: discount = surcharge = 0, status PREVISTO, net = gross |
| Endpoints.Filtrar | financeiro_core/app/api/endpoints.py:138 | a queryset filter keeps exactly the rows satisfying the condition |
| Endpoints.PrimeiroIndice | financeiro_core/app/api/endpoints.py:37 | `.first()`: the lowest index satisfying the condition, or none iff none does |
| Endpoints.BuscarTaxa | financeiro_core/app/api/endpoints.py:30-50 | a fee is found iff an active profile of the store has the type with the exact brand or GERAL; the fee comes from a stored row |
| Endpoints.BuscarTaxaPrefereExata | financeiro_core/app/api/endpoints.py:31-37 | the first exact-brand match wins |
| Endpoints.BuscarTaxaRecorreAGeral | financeiro_core/app/api/endpoints.py:39-46 | with no exact match, the first GERAL match is used |
| Endpoints.BuscarTaxaIgnoraParcelas | financeiro_core/app/api/endpoints.py:30-46 | the number of installments never affects the lookup |
| Endpoints.SomarDespesasCompetencia | financeiro_core/app/api/endpoints.py:54-61 | 0 when no non-cancelled expense of that store and month matches; how each further row changes it is stated by SomarIgnoraCancelada, SomarIgnoraOutraCompetencia and SomarIncluiDaCompetencia |
| Endpoints.SomarIgnoraCancelada | financeiro_core/app/api/endpoints.py:60 | a CANCELADO expense does not change the sum |
| Endpoints.SomarIgnoraOutraCompetencia | financeiro_core/app/api/endpoints.py:56-59 | an expense of another store, month or year does not change the sum; with the two lemmas beside it, this fixes the sum of any table built row by row |
| Endpoints.SomarIncluiDaCompetencia | financeiro_core/app/api/endpoints.py:56-60 | a matching non-cancelled expense adds its net amount |
| Endpoints.ListagemDespesas | financeiro_core/app/api/endpoints.py:183-192 | a row is listed iff the store matches (when the store is truthy) and the competence matches (when both month and year are truthy) |
| Endpoints.ListagemMesSemAno | financeiro_core/app/api/endpoints.py:189-190 | a month without a year, or a year without a month, filters nothing |
| Endpoints.TaxasDoPerfil | financeiro_core/app/api/endpoints.py:93-94 | a profile lists exactly its own fees |
| Endpoints.IndiceCategoria | financeiro_core/app/api/endpoints.py:148 | `get_object_or_404`: the index of the category with the id, or none iff there is none |
| Endpoints.IndiceDespesa | financeiro_core/app/api/endpoints.py:223 | the index of the expense with the id, or none iff there is none |
| Endpoints.IndiceFechamento | financeiro_core/app/api/endpoints.py:273-276 | the index of the closing with that (store, month, year), or none iff there is none |
| Endpoints.IdsCategoriasRemocao | financeiro_core/app/api/endpoints.py:160 | removing a category keeps ids unique and below the next id |
| Endpoints.IdsDespesasRemocao | financeiro_core/app/api/endpoints.py:248 | removing an expense keeps ids unique and below the next id |
| Endpoints.RemocaoCategoria | financeiro_core/app/api/endpoints.py:157-160 | removing an unreferenced category keeps every expense's category reference valid, and the id is gone |
| Endpoints.FechamentoSubstituido | financeiro_core/app/api/endpoints.py:273-286 | overwriting a closing under its own key keeps one closing per (store, month, year) |
| Endpoints.FechamentoAcrescentado | financeiro_core/app/api/endpoints.py:273-286 | adding a closing under a new key keeps one closing per (store, month, year) |
| Endpoints.Banco.constructor | financeiro_core/app/models/entidades.py:72-73 | tables start with the given suppliers, profiles and fees, which are unique, and with no categories, expenses or closings |
| Endpoints.Banco.ListarCategorias | financeiro_core/app/api/endpoints.py:135-138 | exactly the active categories, in order |
| Endpoints.Banco.CriarCategoria | financeiro_core/app/api/endpoints.py:140-143 | appends a category with a fresh id and the given name and flag; nothing else changes |
| Endpoints.Banco.EditarCategoria | financeiro_core/app/api/endpoints.py:145-152 | 404 iff the id is missing; otherwise only that row's name and flag change |
| Endpoints.Banco.ExcluirCategoria | financeiro_core/app/api/endpoints.py:154-161 | 404 for a missing id; 400 with the category kept when an expense references it; otherwise exactly that row is removed |
| Endpoints.Banco.ListarPerfisTaxas | financeiro_core/app/api/endpoints.py:165-171 | active profiles only, restricted to the store only when the store id is truthy, each with its fees |
| Endpoints.Banco.ListarDespesas | financeiro_core/app/api/endpoints.py:175-192 | the step-by-step narrowing gives the listing of `ListagemDespesas` |
| Endpoints.Banco.CriarDespesa | financeiro_core/app/api/endpoints.py:194-218 | 404 for a missing category, or for a given but missing supplier, and no row is added; the call succeeds exactly when the category exists and the supplier is absent or exists, and then adds a row with the payload's fields, gross = value, net = gross, status PREVISTO |
| Endpoints.Banco.EditarDespesa | financeiro_core/app/api/endpoints.py:220-242 | 404 for a missing expense, category or given supplier, and no change; the call succeeds exactly when all three checks pass, and then every mutable field is replaced from the payload, the net amount is recomputed, and the rest of the row is kept |
| Endpoints.Banco.ExcluirDespesa | financeiro_core/app/api/endpoints.py:244-249 | 404 iff the id is missing; otherwise exactly that row is removed |
| Endpoints.Banco.CalcularFechamento | financeiro_core/app/api/endpoints.py:253-288 | the closing's totals come from the domain calculation over the normalised sales and the stored fees and expenses; status ABERTO; an existing row for the key is overwritten, otherwise one is added |
| MockAuth.BuscarUsuario | financeiro_core/app/api/mock_auth.py:125 | `USERS.get`: the user under that name, or none iff there is none |
| MockAuth.LojaPadrao | financeiro_core/app/api/mock_auth.py:130-132 | the first store of the first group, or none when there is no group or that group has no store |
| MockAuth.Login | financeiro_core/app/api/mock_auth.py:123-135 | 401 "Credenciais inválidas" iff the user is unknown or the password is wrong; otherwise a token for the user's id and default store |
| MockAuth.LoginUsuariosFixos | financeiro_core/app/api/mock_auth.py:12-46 | the shipped users log in to stores 1 and 2; wrong passwords and unknown users do not |
| MockAuth.TokenDoCabecalho | financeiro_core/app/api/mock_auth.py:103-107 | 401 "Token ausente" iff the header is missing or lacks the "Bearer " prefix; otherwise the second space-separated field |
| MockAuth.TokenDoCabecalhoBearer | financeiro_core/app/api/mock_auth.py:104-107 | "Bearer t" yields t (section 2.1 of RFC 6750) |
| MockAuth.TokenDoCabecalhoSegundoCampo | financeiro_core/app/api/mock_auth.py:107 | anything after a further space is ignored |
| MockAuth.UsuarioPorId | financeiro_core/app/api/mock_auth.py:110-114 | the user with that id, or none iff no user has it |
| MockAuth.GetUserFromRequest | financeiro_core/app/api/mock_auth.py:102-119 | the header's error, else the decoder's 401, else 401 "Usuário não encontrado" iff no user has the id, else the user and the token's active store; the loop with `break` finds the first such user |
| MockAuth.LojaNoGrupo | financeiro_core/app/api/mock_auth.py:144-147 | the first store of a group with the id, or none iff there is none |
| MockAuth.LojaEmGrupos | financeiro_core/app/api/mock_auth.py:143-147 | found iff some group holds the store |
| MockAuth.LojaEmGruposUltimoVence | financeiro_core/app/api/mock_auth.py:143-147 | the inner `break` only: the last group holding the store decides |
| MockAuth.LojaEmGruposExemplo | financeiro_core/app/api/mock_auth.py:165-169 | a store held as GESTOR and then as LEITURA is reported as LEITURA |
| MockAuth.ProcurarLoja | financeiro_core/app/api/mock_auth.py:164-169 | the nested loops compute the last-group-wins search |
| MockAuth.Me | financeiro_core/app/api/mock_auth.py:137-157 | authentication errors are passed on; otherwise the user's public fields, the groups unchanged, and the active store, which is none when the token's store is absent or 0 |
| MockAuth.SwitchLoja | financeiro_core/app/api/mock_auth.py:159-215 | authentication errors are passed on; 403 with no token when no group holds the store; otherwise the store and a new token for the same user with the store active |
| MockAuth.SwitchLojaAcesso | financeiro_core/app/api/mock_auth.py:163-172 | a switch is refused exactly when no group of the user lists the store |
| Security.Requisicao.constructor | financeiro_core/app/api/security.py:24-28 | attributes never set read as None |
| Security.Authenticate | financeiro_core/app/api/security.py:10-22 | a decodable token sets the user id and active store (or None) and is returned; an expired or invalid one returns None and sets nothing |
| Security.CheckPermission | financeiro_core/app/api/security.py:30-36 | passes iff the active store is truthy and equals the requested one; 401 when it is absent or 0; 403 naming both stores otherwise |
| Security.MensagemAcessoNegadoInjetiva | financeiro_core/app/api/security.py:36 | the 403 message determines both store ids |
| FinanceiroContexto.FinanceiroContext.constructor | financeiro-frontend/src/contexts/FinanceiroContext.tsx:21-24 | store 1, the current month + 1 (so 1..12), and the current year |
| FinanceiroContexto.FinanceiroContext.AtualizarPeriodoPorInput | financeiro-frontend/src/contexts/FinanceiroContext.tsx:37-42 | empty input changes nothing; otherwise year and month are the first two dash-separated numbers |
| FinanceiroContexto.PadStart2Valor | financeiro-frontend/src/contexts/FinanceiroContext.tsx:34 | zero-padding keeps the numeral's value |
| FinanceiroContexto.FormatarLerIdaEVolta | financeiro-frontend/src/contexts/FinanceiroContext.tsx:34-41 | reading back the ISO string gives (year, month) for year, month ≥ 0 |
| FinanceiroContexto.AnoNegativoNaoVolta | financeiro-frontend/src/contexts/FinanceiroContext.tsx:34-41 | year −5, March formats as "-5-03", which reads back as year 0, month 5 |
| FinanceiroContexto.MesTrezeAceito | financeiro-frontend/src/contexts/FinanceiroContext.tsx:39-41 | no range check: "2024-13" is read as month 13 |
| FinanceiroContexto.FormatoMesHtml | financeiro-frontend/src/contexts/FinanceiroContext.tsx:34 | for years ≥ 1000 and months 1..12 the string is a valid month string (section 2.3.5.1 of the HTML Living Standard) |
| FinanceiroContexto.AnoDeTresDigitos | financeiro-frontend/src/contexts/FinanceiroContext.tsx:34 | year 999 gives "999-01", which is not a valid month string |
| FinanceiroContexto.LerMesHtml | financeiro-frontend/src/contexts/FinanceiroContext.tsx:37-41 | a valid month string is accepted and reads as a year > 0 and a month in 1..12 |
| SeletorPeriodo.ProximoMes | financeiro-frontend/src/components/PeriodSelector.tsx:18-25 | from a month in 1..12 the result is in 1..12 and exactly one month later; below 12 the year is kept |
| SeletorPeriodo.MesAnterior | financeiro-frontend/src/components/PeriodSelector.tsx:9-16 | from a month in 1..12 the result is in 1..12 and exactly one month earlier; above 1 the year is kept |
| SeletorPeriodo.MesesCorridosInjetiva | financeiro-frontend/src/components/PeriodSelector.tsx:9-25 | counting months since year 0 tells periods apart |
| SeletorPeriodo.AnteriorDoProximo | financeiro-frontend/src/components/PeriodSelector.tsx:9-25 | next then previous is the original (month, year) |
| SeletorPeriodo.ProximoDoAnterior | financeiro-frontend/src/components/PeriodSelector.tsx:9-25 | previous then next is the original (month, year) |
| SeletorPeriodo.ViradaDeAno | financeiro-frontend/src/components/PeriodSelector.tsx:10-21 | December → January of the next year; January → December of the previous year |
| SeletorPeriodo.HandlePreviousMonth | financeiro-frontend/src/components/PeriodSelector.tsx:9-16 | the shared period moves one month back and the store is kept |
| SeletorPeriodo.HandleNextMonth | financeiro-frontend/src/components/PeriodSelector.tsx:18-25 | the shared period moves one month forward and the store is kept |
| Navegador.Armazenamento.GetItem | financeiro-frontend/src/services/api.ts:107 | the stored value, or null iff the key was never set |
| Navegador.Armazenamento.SetItem | financeiro-frontend/src/services/api.ts:144 | the key now maps to the value, and other keys are kept |
| Navegador.Armazenamento.RemoveItem | financeiro-frontend/src/contexts/AuthContext.tsx:62 | the key is gone, and other keys are kept |
| Api.ApiBaseUrl | financeiro-frontend/src/services/api.ts:5 | the environment's URL when it is non-empty, otherwise the local default |
| Api.Cabecalho | financeiro-frontend/src/services/api.ts:108-111 | the value of the named header, or none iff it is absent |
| Api.GetHeaders | financeiro-frontend/src/services/api.ts:106-112 | always JSON content type; `Authorization: Bearer <token>` iff the stored token is non-empty |
| Api.CabecalhoLidoPeloServidor | financeiro-frontend/src/services/api.ts:106-112 | the server's header parsing recovers the stored token, and a missing token gets 401 (with the mock-auth router mounted under the API base) |
| Api.PedidoLogin | financeiro-frontend/src/services/api.ts:116-121 | the login request has no Authorization header |
| Api.PerfisTaxasUrl | financeiro-frontend/src/services/api.ts:188-191 | path `/taxas/perfis/`; query `loja_id` only when the id is truthy, so 0 is omitted |
| Api.DespesasUrl | financeiro-frontend/src/services/api.ts:215-221 | path `/despesas/`; query always `loja_id`, then `mes` and `ano` only when both are truthy |
| Api.RotaFechamento | financeiro-frontend/src/services/api.ts:204-205 | the closing URL's path segments are fechamento, calcular, store, month, year |
| Api.RotaDashboard | financeiro-frontend/src/services/api.ts:198-199 | the dashboard URL's path segments are dashboard, resumo, store, month, year |
| Api.CategoriaEditadaFicaAtiva | financeiro-frontend/src/services/api.ts:168-173 | a category edited from the front end is always active afterwards |
| Api.MensagemErro | financeiro-frontend/src/services/api.ts:180-183 | the server's `detail` when non-empty, else the fixed message |
| Api.MensagemErroDoServidor | financeiro-frontend/src/services/api.ts:242-245 | an HTTP error's message reaches the user |
| Api.SwitchStore | financeiro-frontend/src/services/api.ts:134-149 | POST with the current headers and the body `{ loja_id }` of the requested store; an `X-New-Token` is stored before `ok` is checked, even on failure; the result is the store or "Falha ao trocar de loja" |
| Api.TrocaNoServidor | financeiro_core/app/api/mock_auth.py:159-175 | the server reads the stored token's header and the body's store: with no token 401; with a valid token of a known user the switch succeeds exactly when a group holds the requested store, and activates that store (with the mock-auth router mounted under the API base) |
| AuthContexto.PodeEditar | financeiro-frontend/src/contexts/AuthContext.tsx:88 | false exactly when an active store has role LEITURA; true with no active store |
| AuthContexto.PermissoesDosUsuariosFixos | financeiro_core/app/api/mock_auth.py:12-46 | "usuario" may edit in store 1 but not in store 2; "leitura" may not edit |
| AuthContexto.AuthContext.constructor | financeiro-frontend/src/contexts/AuthContext.tsx:22-38 | with no stored token loading ends with no user; with one the session is loaded and no route is pushed, or it is logged out to /login on failure |
| AuthContexto.AuthContext.Logout | financeiro-frontend/src/contexts/AuthContext.tsx:61-68 | token removed from storage; user, groups, store and token cleared; route /login |
| AuthContexto.AuthContext.FetchMe | financeiro-frontend/src/contexts/AuthContext.tsx:40-52 | success sets user, groups and store from the answer; failure logs out; loading ends false |
| AuthContexto.AuthContext.Login | financeiro-frontend/src/contexts/AuthContext.tsx:54-59 | token stored and kept before the session loads; route / then, on a failed load, /login |
| AuthContexto.AuthContext.SwitchStore | financeiro-frontend/src/contexts/AuthContext.tsx:70-86 | the request asks for the given store; failure only alerts and keeps the state; success sets the returned store, then reloads the session and keeps the route, or logs out (removing the possibly replaced token) when the reload fails; the token in state is never replaced |
| FormularioDespesa.FormDeDetalhe | financeiro-frontend/src/components/DespesaForm.tsx:25-34 | the category text is empty iff there is no category; the amount is `String(valor_bruto)`; the store is `loja_id_externo` |
| FormularioDespesa.ValidarFormulario | financeiro-frontend/src/components/DespesaForm.tsx:52-62 | an empty category fails first; then an amount `parseFloat` rejects after the first comma becomes a dot; otherwise the payload is the form with the numeric category and the parsed amount |
| FormularioDespesa.ReplaceFirstSemVirgula | financeiro-frontend/src/components/DespesaForm.tsx:55 | an amount without a comma is parsed as typed |
| FormularioDespesa.ReplaceFirstSoPrimeira | financeiro-frontend/src/components/DespesaForm.tsx:55 | "1,234,5" becomes "1.234,5" |
| FormularioDespesa.EdicaoSemMudancasIdaEVolta | financeiro-frontend/src/components/DespesaForm.tsx:25-62 | submitting a loaded expense unchanged sends its own values back |
| FormularioDespesa.EdicaoSemCategoria | financeiro-frontend/src/components/DespesaForm.tsx:30-53 | a loaded expense without a category cannot be saved until one is chosen |
| FormularioDespesa.DespesaForm.constructor | financeiro-frontend/src/components/DespesaForm.tsx:16-23 | empty fields, store 1, both dates today |
| FormularioDespesa.DespesaForm.CarregarInicial | financeiro-frontend/src/components/DespesaForm.tsx:25-36 | an expense replaces the whole form; none leaves it |
| FormularioDespesa.DespesaForm.CarregarCategorias | financeiro-frontend/src/components/DespesaForm.tsx:38-45 | the list on success, the error message on failure |
| FormularioDespesa.DespesaForm.HandleSubmit | financeiro-frontend/src/components/DespesaForm.tsx:47-77 | the message is cleared; an invalid form makes no call and shows its message; otherwise update with the loaded id, or create; a failed call shows its message or the fallback; loading ends false |
| PaginaDespesas.TotalMes | financeiro-frontend/src/app/despesas/page.tsx:24 | the left fold from 0 is the sum of net amounts; an empty list gives 0 |
| PaginaDespesas.ReduzirSoma | financeiro-frontend/src/app/despesas/page.tsx:24 | the fold adds the list's sum to its start value |
| PaginaDespesas.ComStatus | financeiro-frontend/src/app/despesas/page.tsx:20-25 | exactly the expenses with (or without) the status |
| PaginaDespesas.TotalInclusoCancelados | financeiro-frontend/src/app/despesas/page.tsx:20-25 | the total is the non-cancelled sum plus the CANCELADO sum |
| PaginaDespesas.EstiloStatus | financeiro-frontend/src/app/despesas/page.tsx:152-160 | a known status gets its own style; any other status gets PREVISTO's |
| PaginaDespesas.EstilosDistintos | financeiro-frontend/src/app/despesas/page.tsx:153-160 | the four statuses have four distinct styles; an unknown one looks like PREVISTO |
| PaginaDespesas.DespesasPage.constructor | financeiro-frontend/src/app/despesas/page.tsx:12-14 | no expenses, total 0, loading |
| PaginaDespesas.DespesasPage.Carregar | financeiro-frontend/src/app/despesas/page.tsx:16-31 | requests the shared period's URL; a list replaces the shown one and its total; a failure keeps both; loading ends false |
| PaginaDespesas.DespesasPage.Excluir | financeiro-frontend/src/app/despesas/page.tsx:33-41 | declining makes no call and changes nothing; a successful delete reloads, keeping list and total when the reload fails; a failed one alerts and keeps the page |

## Left out

- SQL text, cursors, Django ORM querysets and transactions are not modelled; tables are sequences in primary-key order, and `.first()` is the first row in that order.
- Endpoints.Banco.CalcularFechamento: the fallback to `VendasAPIClientMock` when the SQL client cannot be built is not modelled; the normalised sales rows are a parameter.
- JWT encoding, signing and expiry are not modelled; a token is its two claims, and decoding is a function parameter returning valid, expired or invalid.
- A decoded payload without `user_id` (a `KeyError` in the source) is not modelled: the abstract token always carries a user id.
- The audit snapshot of `executar_fechamento` is not modelled: its `float()` conversions and the current date.
- `ContaBancaria`, `AuditoriaLog`, `criado_por`, `criado_em`, `data_pagamento`, `conta_origem` and the closing's `data_fechamento` are not modelled: no modelled rule reads them.
- Text.Upper: only a..z and à..þ except ÷ are upper-cased. ß, µ, ÿ and the letters beyond Latin-1, which Python's `upper()` also changes, are left as they are.
- `fetch`, HTTP status handling outside the modelled messages, and the `window.location.reload` after a store switch are not modelled. Responses are parameters, and `router.push` is kept only as the last route pushed, a field.
- Endpoints.Banco.CriarDespesa: amounts are stored as given, exact and unbounded. The `numeric(12, 2)` columns of the expense table round to cents on save and refuse more than ten integer digits, and `descricao` is limited to 255 characters; the model keeps neither bound, so its listings and competence sums can read amounts the database would not hold.
- Endpoints.Banco.EditarDespesa: the same as for CriarDespesa; the edited gross amount and the recomputed net amount are stored unrounded and unbounded.
- Endpoints.Banco.CriarCategoria: a name longer than the 100 characters of the `varchar(100)` column makes the database refuse the insert, so the source fails with a database error; the model accepts any name.
- Endpoints.Banco.EditarCategoria: the same 100-character limit on the edited name is not modelled; the model accepts any name.
- Endpoints.Banco.CalcularFechamento: the closing's totals are stored exact and unbounded, without the `numeric(15, 2)` and `numeric(12, 2)` rounding to cents and digit bounds of its columns.
- MockAuth.SwitchLoja: the successful answer is built with `request.create_response`, which neither Django's request nor django-ninja provides, so read literally every allowed switch raises `AttributeError` and the server answers 500 without `X-New-Token`. The model takes the evident intent, that this call returns the JSON response with the store and the new-token header; Api.TrocaNoServidor inherits that assumption.
- Interleavings of the un-awaited `fetchMe` and `carregar` with other events are not modelled; each call runs to completion in program order.
- FormularioDespesa.ValidarFormulario: `parseFloat` is an abstract partial function, and `Number(categoria_id)` is read as a decimal integer. JavaScript's whitespace, hexadecimal and fractional forms are not modelled.
- Amounts are exact decimals; JavaScript float rounding in the page total and in `parseFloat` results is not modelled.
- FinanceiroContexto.FinanceiroContext.AtualizarPeriodoPorInput: input is limited to the empty string or two digit fields, which is what a month input hands over; NaN from other text is not modelled.
- `toLocaleDateString`, `Intl.NumberFormat` and the JSX of the pages are not modelled.
- PaginaDespesas.EstiloStatus: keys inherited from JavaScript's object prototype (such as `constructor`) are treated like any other unknown status.
- The dashboard summary, status patch and closed-month locking appear only in tests with no implementation in the modelled files, so they are not modelled.
- Endpoints.Banco.EditarCategoria, Endpoints.Banco.ExcluirCategoria, Endpoints.Banco.EditarDespesa and Endpoints.Banco.ExcluirDespesa: the 404 detail is "Not Found", the text with `DEBUG` off. With `DEBUG` on, which the settings choose whenever `RENDER` is not in the environment, django-ninja appends ": " and the exception text, and that longer detail is not modelled.
- Endpoints.Banco.ExcluirCategoria: the same DEBUG-on 404 detail is not modelled here either.
- Endpoints.Banco.ExcluirDespesa: the same DEBUG-on 404 detail is not modelled here either.
- Endpoints.Banco.EditarDespesa: the same DEBUG-on 404 detail, for a missing expense or supplier, is not modelled here either.
- The mock-auth router (`/auth/login`, `/auth/me`, `/auth/switch-loja`) is mounted only by a URL module that the project's URL configuration never includes, and that module imports an `api` object the endpoints module does not define; as configured, those paths get the router's 404. The model takes the evident intent that the router is mounted under the API base. MockAuth.Login, MockAuth.Me, MockAuth.SwitchLoja, Api.CabecalhoLidoPeloServidor and Api.TrocaNoServidor depend on it.
- Money.Round2: it is total and exact. Python's default decimal context keeps 28 significant digits, so the sums, products and differences of the closing round beyond that, and `quantize(Decimal('0.01'))` raises `InvalidOperation` once its result needs more than 28 digits, from magnitudes of 10^26 on; no realistic amount reaches either limit.
