# voxmei: the computations behind the pages, in Dafny

voxmei is a desktop application for accountants who look after micro-entrepreneur (MEI) clients. It keeps the clients, their ledger entries and the monthly pro-labore (owner's pay) records in a remote document store, and it draws PDF documents from them. This project models the logic that the React pages and hooks run on records that are already fetched. It proves what that logic promises.

The model covers these parts:

- **Monthly revenue report** (`pages/Relatorios.tsx`):
  - the window of the last n closed months;
  - the opening-date truncation, both in the page's preview and in `handleGerar` with its confirmation modal;
  - the `yyyy-MM` revenue dictionary and the rows and total built from it;
  - the greedy word wrap of the client name and of the legal declaration;
  - the coordinates of every box, text and line on the page, with the `y` cursor walking down;
  - the suggested file name.
- **CNPJ formatter** (`lib/utils.ts`). A CNPJ is the Brazilian company registration number.
- **Month picker** (`components/MonthPicker.tsx`): the `MM/YYYY` parse and format, the month arrows, and the state of the dropdown.
- **Header-bell notifications** (`hooks/useNotificacoes.ts`).
- **Payslip page** (`pages/Holerite.tsx`): the record query, the file name, the choice between the template and the drawn fallback page, and the save alert.
- **Pro-labore batch** (`pages/ProLabore.tsx`): the INSS and net amounts and the one-record-per-client batch. INSS is the Brazilian social-security contribution.
- **Ledger** (`pages/Financeiro.tsx`): the balance and the two cards, the orderings, and the record a new entry is saved as.
- **Client page** (`pages/Clientes.tsx`): the mapping from a CNPJ lookup to the form, the payload that is saved, and the list order.

Each Dafny module follows one source file. The code's shape carries over:

- Pure expressions become functions and lemmas.
- Loops that push into arrays or fill a dictionary become methods with loop invariants. Each method is proved against a specification function.
- Pages whose fields change in place become classes with `modifies` clauses: the month picker's state, the payslip page, and the client form.
- The in-place `Array.prototype.sort` of the ledger and client lists is an insertion sort on an `array` (module `Sorting`). It is proved sorted and a permutation.

The system's collaborators are parameters of the model:

- the clock is a `today`, a `now` or a current-month parameter;
- date-fns `parse` and `toLocaleDateString` are function parameters;
- `localeCompare` and `new Date(s).getTime()` are function parameters;
- the pt-BR currency formatter is the function `brl`;
- pdf-lib's font metrics are the function `Measure`;
- the outcome of some calls (succeeded, threw, cancelled) is a parameter: the payslip page's record query, template fetch and save dialog, the pro-labore batch commit, and the CNPJ lookup. The other reads are taken as succeeded (see Left out).

Helper modules:

- `Common` holds `Option`, the `s || null` idiom and `find`.
- `Text` holds the JavaScript string built-ins the code relies on: `String(n)`, `padStart`, `split`, `parseInt`, `toUpperCase`, and the `\s` class.
- `Calendar` holds year-month arithmetic and the three date-fns formats `yyyy-MM`, `MM/yyyy` and `MMM/yy`.
- `Money` holds `toFixed(2)`.

Behaviours of the code that the model keeps as written:

- **File-name sanitisation.** `Holerite.tsx:88` replaces each non-alphanumeric character with its own `_`, so runs are not collapsed (see `Holerite.SanitizeExample`).
- **Centring.** Only the signature-block texts are clamped to their line (`Relatorios.tsx:413-468`). Header, declaration, title and date texts use `marginX + (contentW - w) / 2`, which goes left of the margin for a wide text (see `RelatoriosLayout.CenterX`).
- **Zero amounts.** Every row total, zero included, goes through the currency formatter (`Relatorios.tsx:367`).
- **Template filling.** The only fill code (`Holerite.tsx:76-83`) is commented out, so a loaded template's bytes are saved as they are read. No batch merge exists in these files.

## Model

| member | source | states |
|---|---|---|
| Common.OrNull | src/renderer/src/pages/Financeiro.tsx:105 | `s || null` loses nothing: it is null exactly for the empty string, and reading null back as '' gives the string again |
| Common.Find | src/renderer/src/pages/Financeiro.tsx:97 | `find` answers the first element that satisfies the test, with no earlier element satisfying it, and answers nothing exactly when no element does; both the ledger and the report look up the selected client with it |
| Text.NatStr | src/renderer/src/hooks/useNotificacoes.ts:110 | `String(n)` of a natural number is a non-empty string of decimal digits |
| Text.NatStrValue | src/renderer/src/hooks/useNotificacoes.ts:110 | the decimal digits of n read back as n |
| Text.PadStart | src/renderer/src/components/MonthPicker.tsx:43 | `padStart` gives max(|s|, w) characters: fill characters in front, then s unchanged at the end |
| Text.PadNatValue | src/renderer/src/components/MonthPicker.tsx:43 | a zero-padded number reads back as the number; it has exactly w characters when the number has at most w digits |
| Text.Split | src/renderer/src/components/MonthPicker.tsx:33 | `split` always yields at least one part |
| Text.SplitParts | src/renderer/src/components/MonthPicker.tsx:33 | no part of a split contains the separator |
| Text.SplitNoSep | src/renderer/src/components/MonthPicker.tsx:33 | a string without the separator splits into itself alone |
| Text.SplitAppend | src/renderer/src/components/MonthPicker.tsx:33 | splitting `a + sep + b` gives the parts of a followed by the parts of b |
| Text.TrimStartSpec | src/renderer/src/components/MonthPicker.tsx:34-35 | `parseInt` skips a prefix made only of white space; what is left does not start with white space |
| Text.DigitPrefix | src/renderer/src/components/MonthPicker.tsx:34-35 | the digits `parseInt` reads are the longest digit prefix: all digits, and the next character is not a digit |
| Text.ParseIntStr | src/renderer/src/components/MonthPicker.tsx:34-35 | `parseInt(String(i), 10) == i` for every integer, negative ones included |
| Text.ParseIntPadded | src/renderer/src/components/MonthPicker.tsx:34 | `parseInt` reads a zero-padded number as the number |
| Text.UpperSpec | src/renderer/src/pages/Relatorios.tsx:220 | upper-casing keeps the length, turns every ASCII small letter into its capital, leaves digits, punctuation, white space and capitals unchanged, leaves no ASCII small letter behind, and is idempotent (ASCII and one-character Latin-1 capitals only; see Left out) |
| Calendar.FromIndex | src/renderer/src/pages/Relatorios.tsx:48-51 | the month numbered k on the month line is a real month (1..12) and its number is k, so `subMonths` by i is the number minus i |
| Calendar.FromIndexIndex | src/renderer/src/pages/Relatorios.tsx:48-51 | numbering months is one-to-one: numbering a month and converting back gives the same month |
| Calendar.Label | src/renderer/src/pages/Relatorios.tsx:54 | the definition of the `MMM/yy` label without the dot (`nov/25`); its values on a window are stated by `RelatoriosPeriod.LabelsExample` |
| Calendar.KeyYearMonth | src/renderer/src/pages/Relatorios.tsx:53 | the definition of the `yyyy-MM` key; stated by `KeyYearMonthRoundTrip` and `KeyYearMonthInjective` |
| Calendar.KeyYearMonthRoundTrip | src/renderer/src/pages/Relatorios.tsx:53-107 | the `yyyy-MM` key has 7 characters and parses back to its month, so re-parsing `mesAno` recovers the month |
| Calendar.KeyYearMonthInjective | src/renderer/src/pages/Relatorios.tsx:53-170 | two months share a `yyyy-MM` key exactly when they are equal, so the revenue dictionary has one entry per window month |
| Calendar.KeyMonthYear | src/renderer/src/hooks/useNotificacoes.ts:42 | the definition of the `MM/yyyy` key; stated by `KeyMonthYearLength` |
| Calendar.KeyMonthYearLength | src/renderer/src/pages/ProLabore.tsx:17 | the `MM/yyyy` month of a pro-labore record always has 7 characters |
| Utils.DigitsSpec | src/renderer/src/lib/utils.ts:14 | `replace(/\D/g, '')` gives only digits, keeps every digit of the input as often as it occurs, never lengthens the input, and returns the input itself exactly when it is all digits |
| Utils.DigitsAppend | src/renderer/src/lib/utils.ts:14 | the digits of a concatenation are the digits of the first part followed by those of the second, so the digits keep their order |
| Utils.DigitsOfPunctuate | src/renderer/src/lib/utils.ts:14-16 | removing the punctuation from the formatted CNPJ gives the fourteen digits back |
| Utils.ShapedPunctuate | src/renderer/src/lib/utils.ts:16 | fourteen punctuated digits have the 18-character shape DD.DDD.DDD/DDDD-DD |
| Utils.FormatCnpj | src/renderer/src/lib/utils.ts:9-17 | the definition of `formatCnpj`; stated by `FormatCnpjSpec`, `FormatCnpjIdempotent` and `RawAndFormattedAgree` |
| Utils.FormatCnpjSpec | src/renderer/src/lib/utils.ts:13-17 | with fewer than 14 digits the input is returned unchanged; otherwise the result has the shape DD.DDD.DDD/DDDD-DD and its digits are the input's first fourteen |
| Utils.FormatCnpjIdempotent | src/renderer/src/lib/utils.ts:9-17 | formatting a formatted value changes nothing |
| Utils.RawAndFormattedAgree | src/renderer/src/lib/utils.ts:9-12 | a raw 14-digit CNPJ formats to its punctuation, and re-formatting that result gives the same string |
| Utils.FormatCnpjExample | src/renderer/src/lib/utils.ts:13-17 | `12345678000195` is formatted as `12.345.678/0001-95` |
| Money.ToFixed2 | src/renderer/src/pages/Holerite.tsx:70-72 | the definition of `toFixed(2)` on an exact amount; stated by `Cents`, `ToFixed2Reads` and `ToFixed2Negative` |
| Money.Cents | src/renderer/src/pages/Holerite.tsx:70-72 | the cents `toFixed(2)` prints are within half a cent of the amount, with ties rounded up |
| Money.ToFixed2Reads | src/renderer/src/pages/Holerite.tsx:70-72 | a non-negative amount is printed as digits, '.', two digits, and this reads back as the amount rounded to the cent |
| Money.ToFixed2Negative | src/renderer/src/pages/Holerite.tsx:70-72 | a negative amount is printed as '-' followed by the printing of its magnitude |
| MonthPicker.ParseValue | src/renderer/src/components/MonthPicker.tsx:32-40 | the definition of `parseValue`; stated by `ParseFormat`, `ParseValueEmpty`, `ParseValueNoYear` and `ParseValueWithSlash` |
| MonthPicker.FormatValue | src/renderer/src/components/MonthPicker.tsx:42-44 | the definition of `formatValue`; stated by `FormatValueHead`, `SplitFormat` and `ParseFormat` |
| MonthPicker.FormatValueHead | src/renderer/src/components/MonthPicker.tsx:42-44 | for months 1..12 the value starts with the month as exactly two zero-padded digits, and the year part is never empty |
| MonthPicker.SplitFormat | src/renderer/src/components/MonthPicker.tsx:32-44 | a formatted value splits at '/' into exactly the two-digit month and the year |
| MonthPicker.ParseFormat | src/renderer/src/components/MonthPicker.tsx:32-44 | `parseValue(formatValue(m, y)) == (m, y)` for every month 1..12 and every year, whatever the clock says |
| MonthPicker.ParseValueEmpty | src/renderer/src/components/MonthPicker.tsx:36-39 | an empty value falls back to the current month and year |
| MonthPicker.ParseValueNoYear | src/renderer/src/components/MonthPicker.tsx:32-39 | for every value without '/', the year falls back to the current year, and the month is the value read by `parseInt` or, when that is NaN, the current month |
| MonthPicker.ParseValueWithSlash | src/renderer/src/components/MonthPicker.tsx:32-39 | for every value `a/b` with no '/' in a, the month is `parseInt(a)` and the year is `parseInt` of b up to its next '/', and each of them that is NaN falls back to the current one on its own |
| MonthPicker.ParseValueMonthOnly | src/renderer/src/components/MonthPicker.tsx:32-39 | "03" keeps month 3 and takes the current year |
| MonthPicker.ParseValueYearOnly | src/renderer/src/components/MonthPicker.tsx:32-39 | "xx/2025" keeps year 2025 and takes the current month |
| MonthPicker.Shift | src/renderer/src/components/MonthPicker.tsx:73-85 | the month arithmetic of the arrows; stated by `ShiftMonths` and `ShiftForwardBack` |
| MonthPicker.ShiftMonths | src/renderer/src/components/MonthPicker.tsx:73-85 | a step always lands on a month 1..12; forward from December is January of the next year, back from January is December of the previous year, and any other step keeps the year |
| MonthPicker.ShiftForwardBack | src/renderer/src/components/MonthPicker.tsx:73-85 | a step forward then back, or back then forward, returns to the starting month |
| MonthPicker.Picker.constructor | src/renderer/src/components/MonthPicker.tsx:52-54 | the dropdown starts closed, with the year in view taken from the value |
| MonthPicker.Picker.Emit | src/renderer/src/components/MonthPicker.tsx:68-71 | `onChange` sets the value; the year in view re-syncs to the new value's year only when the value really changed |
| MonthPicker.Picker.GoMonth | src/renderer/src/components/MonthPicker.tsx:73-85 | the arrow emits the shifted month as `MM/YYYY`; it parses back to that month, which lies in 1..12; the dropdown is unchanged |
| MonthPicker.Picker.IsSelected | src/renderer/src/components/MonthPicker.tsx:92 | the highlight test of a grid cell; `SelectMonth` states that afterwards exactly the chosen cell passes it |
| MonthPicker.Picker.SelectMonth | src/renderer/src/components/MonthPicker.tsx:87-92 | the chosen month is emitted with the year in view (not the displayed year); the dropdown closes; the year in view stays; afterwards exactly the chosen month's cell is highlighted |
| MonthPicker.Picker.Toggle | src/renderer/src/components/MonthPicker.tsx:128 | the label button flips the dropdown and changes nothing else |
| MonthPicker.Picker.ClickOutside | src/renderer/src/components/MonthPicker.tsx:58-66 | a mousedown outside closes the dropdown and changes nothing else |
| MonthPicker.Picker.PrevYear | src/renderer/src/components/MonthPicker.tsx:156 | the year in view goes down by one; the value and the dropdown are unchanged |
| MonthPicker.Picker.NextYear | src/renderer/src/components/MonthPicker.tsx:164 | the year in view goes up by one; the value and the dropdown are unchanged |
| Notificacoes.ClientesComReceita | src/renderer/src/hooks/useNotificacoes.ts:79-86 | the set filled by the loop is exactly the clients of the entries whose date starts with the month's key |
| Notificacoes.Sem | src/renderer/src/hooks/useNotificacoes.ts:89 | the filter keeps exactly the active clients whose id is not in the set, each as many times as it is listed, and never adds one |
| Notificacoes.SemDoMesCount | src/renderer/src/hooks/useNotificacoes.ts:79-113 | with each active client listed once, the sem-lancamento notification's count is the number of active clients with no Receita entry in the month |
| Notificacoes.SemDoMesSpec | src/renderer/src/hooks/useNotificacoes.ts:79-89 | a client lacks revenue exactly when it is active and none of its Receita entries has a date starting with the current `yyyy-MM` |
| Notificacoes.DescPlural | src/renderer/src/hooks/useNotificacoes.ts:104-123 | "clientes" and "têm" are used together, and exactly when the count is above one |
| Notificacoes.Lista | src/renderer/src/hooks/useNotificacoes.ts:102-134 | the list the hook builds from its three counts; stated by `ListaOrder`, `ListaCounts` and `ListaTotal` |
| Notificacoes.Montar | src/renderer/src/hooks/useNotificacoes.ts:102-134 | the conditional pushes build exactly the list `Lista` describes |
| Notificacoes.Run | src/renderer/src/hooks/useNotificacoes.ts:31-136 | no user gives an empty list. Otherwise the list is built from three inputs: the number of active clients without revenue this month, the number of pending clients, and whether no `MM/yyyy` pro-labore exists while some client is active |
| Notificacoes.ListaOrder | src/renderer/src/hooks/useNotificacoes.ts:102-134 | the list holds at most one of each kind, in the fixed order sem-lancamento, pendente, pro-labore; each is present exactly when its condition holds |
| Notificacoes.ListaCounts | src/renderer/src/hooks/useNotificacoes.ts:104-134 | sem-lancamento carries the number of clients without revenue and its text; pendente carries the number of pending clients and its text; pro-labore counts 1 |
| Notificacoes.Total | src/renderer/src/hooks/useNotificacoes.ts:147 | the badge total; stated by `TotalAppend` and `ListaTotal` |
| Notificacoes.TotalAppend | src/renderer/src/hooks/useNotificacoes.ts:147 | the total of two lists put together is the sum of their totals |
| Notificacoes.ListaTotal | src/renderer/src/hooks/useNotificacoes.ts:147 | the badge total is the number of clients without revenue, plus the pending clients, plus one when the pro-labore is missing |
| ProLabore.FieldValue | src/renderer/src/pages/ProLabore.tsx:24-25 | `Number(watch(field) || 0)`; an empty form gives zero amounts (`DefaultAmounts`) |
| ProLabore.CalcInss | src/renderer/src/pages/ProLabore.tsx:26 | the INSS as a percentage of the base; stated by `SplitOfBase` and `DefaultAmounts` |
| ProLabore.Liquido | src/renderer/src/pages/ProLabore.tsx:27 | the base less the INSS; stated by `SplitOfBase` and `DefaultAmounts` |
| ProLabore.SplitOfBase | src/renderer/src/pages/ProLabore.tsx:26-27 | INSS plus net is the base. For a base ≥ 0 and a rate between 0 and 100, both lie between 0 and the base. A higher rate never gives a higher net |
| ProLabore.DefaultAmounts | src/renderer/src/pages/ProLabore.tsx:21-27 | the defaults (1412.00 at 11%) give INSS 155.32 and net 1256.68; empty fields give 0 for both |
| ProLabore.Records | src/renderer/src/pages/ProLabore.tsx:64-78 | the batch of records, one per client; stated by `RecordsSpec` and produced by `Batch` |
| ProLabore.RecordsSpec | src/renderer/src/pages/ProLabore.tsx:64-78 | the batch holds one record per active client, in snapshot order. Each record carries its client's id, name and CNPJ. Every record has the same month, base, rate and user, an INSS of base·rate/100, and INSS plus net equal to the base |
| ProLabore.Batch | src/renderer/src/pages/ProLabore.tsx:62-78 | the `forEach` loop builds exactly the batch `Records` describes |
| ProLabore.HandleGenerateValues | src/renderer/src/pages/ProLabore.tsx:29-89 | nothing happens while signed out. No active client gives an alert and no write. Existing records prompt, and a declined prompt writes nothing. Otherwise the batch of the form's amounts is written, or a failed commit gives the error alert |
| Holerite.Sanitize | src/renderer/src/pages/Holerite.tsx:88 | `replace(/[^a-z0-9]/gi, '_')` keeps the length and maps each character on its own |
| Holerite.SanitizeClean | src/renderer/src/pages/Holerite.tsx:88 | the result holds only ASCII letters, digits and '_'; letters and digits stay in place; sanitising twice is sanitising once |
| Holerite.SanitizeExample | src/renderer/src/pages/Holerite.tsx:88 | runs are not collapsed: `Zé & Cia` becomes `Z____Cia` |
| Holerite.ReplaceFirst | src/renderer/src/pages/Holerite.tsx:88 | a string-pattern `replace` keeps the length, and changes nothing when the pattern is absent |
| Holerite.ReplaceFirstAt | src/renderer/src/pages/Holerite.tsx:88 | only the first occurrence is replaced; every other character is unchanged |
| Holerite.OnlyFirstSlash | src/renderer/src/pages/Holerite.tsx:88 | a month with two slashes keeps the second: `01/02/2025` becomes `01-02/2025` |
| Holerite.FileName | src/renderer/src/pages/Holerite.tsx:88 | the file name is 14 characters longer than the name and the month together |
| Holerite.FileNameShape | src/renderer/src/pages/Holerite.tsx:88 | the name is `Holerite_`, the cleaned company name, `_`, the month, `.pdf`; an `MM/YYYY` month appears as `MM-YYYY` |
| Holerite.FallbackLayout | src/renderer/src/pages/Holerite.tsx:63-73 | the fallback has six lines at x = 50 and y = 780, 740, 720, 680, 660, 640, top to bottom, each inside the 842-point page; the three amounts are printed with two decimals |
| Holerite.FallbackLines | src/renderer/src/pages/Holerite.tsx:63-73 | the six lines of the drawn fallback page; stated by `FallbackLayout` |
| Holerite.SaveAlert | src/renderer/src/pages/Holerite.tsx:90-98 | the alert after saving (success, nothing on cancel, the error, or the generic message when the call threw); used by `Page.GeneratePdf` |
| Holerite.Query | src/renderer/src/pages/Holerite.tsx:29-39 | the records listed are exactly the store's records of this user and this month, each as many times as in the store |
| Holerite.Page.constructor | src/renderer/src/pages/Holerite.tsx:24-26 | the filter starts at the current month, with an empty list and no PDF in progress |
| Holerite.Page.Refresh | src/renderer/src/pages/Holerite.tsx:29-49 | the list is replaced by the query's answer only for a 7-character filter, a signed-in user and a fetch that succeeded; otherwise it is kept |
| Holerite.Page.SetFilterMonth | src/renderer/src/pages/Holerite.tsx:45-123 | typing a filter stores it and refreshes the list under the same conditions |
| Holerite.Page.GeneratePdf | src/renderer/src/pages/Holerite.tsx:51-102 | a template that loads is saved byte for byte; otherwise the one-page 595×842 fallback is drawn. The file name is the sanitised name and the month. The alert follows `SaveAlert`. The in-progress marker is cleared at the end |
| Financeiro.Saldo | src/renderer/src/pages/Financeiro.tsx:123 | the balance reduce; stated by `SaldoIsIncomeLessExpense` and `CardsIgnoreOrder` |
| Financeiro.SumOf | src/renderer/src/pages/Financeiro.tsx:144-156 | the sum of one kind of entry (the two cards); stated by `SumOfPermutation` and `SaldoIsIncomeLessExpense` |
| Financeiro.SaldoIsIncomeLessExpense | src/renderer/src/pages/Financeiro.tsx:123-156 | the balance is the Receitas card minus the Despesas card; an empty ledger has balance 0 |
| Financeiro.SumOfPermutation | src/renderer/src/pages/Financeiro.tsx:123-156 | the card sums do not depend on the order of the entries |
| Financeiro.OfUser | src/renderer/src/pages/Financeiro.tsx:67-69 | the fetched entries are exactly the store's entries of this user, each as many times as in the store |
| Financeiro.FetchLancamentos | src/renderer/src/pages/Financeiro.tsx:64-75 | the user's entries, rearranged so that the dates are newest first |
| Financeiro.CardsIgnoreOrder | src/renderer/src/pages/Financeiro.tsx:70-156 | sorting changes neither the balance nor the two cards |
| Financeiro.FetchClientes | src/renderer/src/pages/Financeiro.tsx:47-62 | the active clients, rearranged into ascending name order |
| Financeiro.ClienteNome | src/renderer/src/pages/Financeiro.tsx:97-107 | the client name stored with an entry; stated by `ClienteNomeSpec` |
| Financeiro.ClienteNomeSpec | src/renderer/src/pages/Financeiro.tsx:97-107 | the stored name is that of a client with the chosen id when one is listed, and "Sem Vínculo" when none is |
| Financeiro.OnSubmit | src/renderer/src/pages/Financeiro.tsx:82-110 | with nobody signed in nothing is uploaded and nothing saved; otherwise an entry is saved under the user's id, a file is uploaded exactly when the entry has an invoice and a file was chosen; `nfUrl` is the download address then and null otherwise; the client's name follows `find`; the other fields are the form's |
| Clientes.OrElse | src/renderer/src/pages/Clientes.tsx:82-83 | `a || b` is the first value or the fallback; it is a when a is truthy, and it is empty only when a is falsy and b is empty |
| Clientes.AddressLine | src/renderer/src/pages/Clientes.tsx:105-110 | the address line of the lookup; stated by `AddressDetails` |
| Clientes.IsOptant | src/renderer/src/pages/Clientes.tsx:94-103 | the Simples decision with its fallbacks; stated by `FilledSpec` |
| Clientes.AddressDetails | src/renderer/src/pages/Clientes.tsx:105-110 | empty details print exactly as no details; real details insert " - " and themselves right after the number and change nothing else in the line |
| Clientes.Filled | src/renderer/src/pages/Clientes.tsx:80-115 | the form after a successful lookup; stated by `FilledSpec` and used by `Form.FetchCnpj` |
| Clientes.FilledSpec | src/renderer/src/pages/Clientes.tsx:80-115 | the legal name is the company name or ''. The trade name is the alias, else the legal name. Phone and e-mail come from the first element of a non-empty list and stay as typed otherwise; the activity stays without one and the opening date without a truthy one. The Simples flag is set exactly for a reported option, an 'ME' size or nature 2135, even when the option is reported false. The CNPJ and status are untouched, and with no address the address field is kept |
| Clientes.Form.constructor | src/renderer/src/pages/Clientes.tsx:48-50 | the form holds the values it was opened with |
| Clientes.Form.FetchCnpj | src/renderer/src/pages/Clientes.tsx:73-125 | a CNPJ under 14 characters does nothing. A thrown call alerts "Falha na comunicação.". A failed answer alerts its error (or the default) and leaves the form. A successful answer fills the form as `Filled` says, with no alert |
| Clientes.Payload | src/renderer/src/pages/Clientes.tsx:130 | the saved payload; stated by `PayloadSpec` |
| Clientes.PayloadSpec | src/renderer/src/pages/Clientes.tsx:130 | the payload is the form with only the CNPJ changed. Saving a saved payload again changes nothing. A CNPJ with 14 or more digits gets the formatted shape; any other is kept as typed |
| Clientes.OfUser | src/renderer/src/pages/Clientes.tsx:55-57 | the fetched clients are exactly the store's clients of this user, each as many times as in the store |
| Clientes.FetchClientes | src/renderer/src/pages/Clientes.tsx:52-64 | the user's clients, rearranged newest first by creation time |
| Sorting.SortDesc | src/renderer/src/pages/Financeiro.tsx:70 | the in-place sort leaves the array in non-increasing key order and a permutation of what it held |
| Sorting.InsertDown | src/renderer/src/pages/Financeiro.tsx:70 | one insertion pass extends the sorted prefix by one element and keeps the array a permutation |
| RelatoriosPeriod.MonthAt | src/renderer/src/pages/Relatorios.tsx:51-55 | window entry k is the month numbered k, with a four-digit year |
| RelatoriosPeriod.ClosedMonths | src/renderer/src/pages/Relatorios.tsx:45-58 | the window of closed months; stated by `ClosedMonthsWindow` and `MonthAt`, produced by `GetClosedMonths` |
| RelatoriosPeriod.GetClosedMonths | src/renderer/src/pages/Relatorios.tsx:45-58 | the counting loop builds exactly the window `ClosedMonths` describes |
| RelatoriosPeriod.ClosedMonthsWindow | src/renderer/src/pages/Relatorios.tsx:45-58 | the window has exactly n consecutive months, oldest first; the last is the month before today's; today's month is never in it |
| RelatoriosPeriod.LabelsExample | src/renderer/src/pages/Relatorios.tsx:54 | the labels are the pt-BR abbreviation and two-digit year, without a dot: nov/25, dez/25, jan/26 |
| RelatoriosPeriod.ClosedMonthsExample | src/renderer/src/pages/Relatorios.tsx:45-58 | in February 2026 the three-month window is nov/25, dez/25, jan/26 |
| RelatoriosPeriod.ParseDateAbertura | src/renderer/src/pages/Relatorios.tsx:36-43 | `parseDateAbertura`: absent, Invalid Date or a date; its consequences are stated by `HandleGerarOnWindow` and `InvalidDateDiverges` |
| RelatoriosPeriod.KeepFrom | src/renderer/src/pages/Relatorios.tsx:106-130 | the filter keeps exactly the months whose start is on or after the opening month's start |
| RelatoriosPeriod.KeepFromSuffix | src/renderer/src/pages/Relatorios.tsx:127-130 | on a consecutive window the filter drops just the months before the opening month, so the kept months are a suffix, in order |
| RelatoriosPeriod.MesesPreview | src/renderer/src/pages/Relatorios.tsx:100-110 | the months the page lists for the selected client; stated by `PreviewAgreesWhenNotAfter` and `InvalidDateDiverges` |
| RelatoriosPeriod.HandleGerar | src/renderer/src/pages/Relatorios.tsx:113-153 | `handleGerar`; stated by `HandleGerarOnWindow`, `MonthsGenerated` and `ConfirmWithoutExclusion` |
| RelatoriosPeriod.MonthsGenerated | src/renderer/src/pages/Relatorios.tsx:152-165 | a report that reaches `gerarPdf` from the modal always has at least one month |
| RelatoriosPeriod.HandleGerarOnWindow | src/renderer/src/pages/Relatorios.tsx:113-153 | the window is generated unchanged, with no modal, when the opening date is absent, invalid, or not after the first month's start. Otherwise the modal lists exactly the months from the opening month on. The confirm button is offered exactly when the opening month is before today's |
| RelatoriosPeriod.PreviewAgreesWhenNotAfter | src/renderer/src/pages/Relatorios.tsx:100-125 | when the opening date is not after the window's first day, the preview lists the whole window, as `handleGerar` generates it |
| RelatoriosPeriod.ConfirmWithoutExclusion | src/renderer/src/pages/Relatorios.tsx:123-148 | as written, an opening date inside the first window month, after its first day, opens the modal although no month is dropped |
| RelatoriosPeriod.InvalidDateDiverges | src/renderer/src/pages/Relatorios.tsx:100-153 | as written, an opening date that does not parse makes the preview list no month, while `handleGerar` generates the whole window without asking |
| RelatoriosPeriod.TruncationExample | src/renderer/src/pages/Relatorios.tsx:113-148 | a client opened on 10 January 2026 against the February 2026 three-month window keeps only January, dropping two months |
| RelatoriosRevenue.Prefix7 | src/renderer/src/pages/Relatorios.tsx:181 | `substring(0, 7)` is a prefix of at most 7 characters, exactly 7 when the string is long enough |
| RelatoriosRevenue.KeysParseBack | src/renderer/src/pages/Relatorios.tsx:53-107 | every `mesAno` key has 7 characters and `parse(m.mesAno, 'yyyy-MM')` gives back its own month; keys of different months differ |
| RelatoriosRevenue.EmptyTotals | src/renderer/src/pages/Relatorios.tsx:169-170 | the dictionary starts with exactly the window's keys, all at 0 |
| RelatoriosRevenue.AddReceitas | src/renderer/src/pages/Relatorios.tsx:179-185 | after the loop the dictionary keeps the same keys, and each key holds the sum of `Number(valor) || 0` over the documents whose date starts with it |
| RelatoriosRevenue.KeysNotEmpty | src/renderer/src/pages/Relatorios.tsx:182 | no window key is empty, so the `mesAno &&` guard never hides a window month |
| RelatoriosRevenue.AggregateRevenue | src/renderer/src/pages/Relatorios.tsx:169-192 | each row holds its window month's key, label and revenue, in window order; the grand total adds the rows |
| RelatoriosRevenue.ContributionDistinct | src/renderer/src/pages/Relatorios.tsx:179-185 | with distinct keys a document counts once when its month is in the window and not at all otherwise |
| RelatoriosRevenue.SumOverKeysIsInWindow | src/renderer/src/pages/Relatorios.tsx:179-192 | with distinct keys, adding month by month equals adding the documents dated inside the window |
| RelatoriosRevenue.SumTotalsByKeys | src/renderer/src/pages/Relatorios.tsx:187-192 | the reduce over the rows is the sum of the month revenues over the keys |
| RelatoriosRevenue.WindowKeysDistinct | src/renderer/src/pages/Relatorios.tsx:169-170 | the months of a consecutive window have pairwise different keys |
| RelatoriosRevenue.TotalGeralIsWindowRevenue | src/renderer/src/pages/Relatorios.tsx:169-192 | the grand total is the revenue of the documents dated inside the window: those outside count nothing, and none counts twice |
| RelatoriosRevenue.MonthTotalExample | src/renderer/src/pages/Relatorios.tsx:183 | a zero amount and 150.50 in the same month total 150.50 |
| RelatoriosWrap.Wrapped | src/renderer/src/pages/Relatorios.tsx:223-235 | the greedy wrap; stated by `WrappedTokens`, `WrappedFit`, `FirstWordTooWide` and `EmptyTextNoLines`, produced by `Wrap` |
| RelatoriosWrap.Wrap | src/renderer/src/pages/Relatorios.tsx:223-293 | the wrap loop and its final push produce exactly `Wrapped` |
| RelatoriosWrap.RunTokens | src/renderer/src/pages/Relatorios.tsx:226-234 | the loop loses no word and reorders none: the closed lines and the current line hold exactly the words read so far |
| RelatoriosWrap.WrappedTokens | src/renderer/src/pages/Relatorios.tsx:223-235 | the words of the lines, read in order, are the words of the text |
| RelatoriosWrap.RunFit | src/renderer/src/pages/Relatorios.tsx:226-234 | every line either fits, or is one word of the text standing alone, or is the empty line closed before a word that does not fit |
| RelatoriosWrap.WrappedFit | src/renderer/src/pages/Relatorios.tsx:223-235 | a line of two or more words fits the maximum width; a line that is too wide is a single word or empty |
| RelatoriosWrap.RunLinesGrow | src/renderer/src/pages/Relatorios.tsx:226-234 | the loop only appends lines: earlier lines are never rewritten |
| RelatoriosWrap.FirstWordTooWide | src/renderer/src/pages/Relatorios.tsx:226-235 | a first word wider than the line gives an empty first line |
| RelatoriosWrap.EmptyTextNoLines | src/renderer/src/pages/Relatorios.tsx:223-235 | an empty text gives no line at all |
| RelatoriosLayout.CenterX | src/renderer/src/pages/Relatorios.tsx:254-479 | the text's midpoint is the page's midpoint; a text wider than the content area starts left of the margin |
| RelatoriosLayout.SigX | src/renderer/src/pages/Relatorios.tsx:413-468 | a signature text never starts left of the signature line; it is centred on the line when it fits and starts at the line's left end when it does not |
| RelatoriosLayout.HeaderBoxH | src/renderer/src/pages/Relatorios.tsx:238-240 | the header box height; stated by `HeaderGeometry` |
| RelatoriosLayout.Header | src/renderer/src/pages/Relatorios.tsx:237-270 | the header block draws `HeaderOps`, and the cursor moves below the box and an 8-point gap |
| RelatoriosLayout.HeaderGeometry | src/renderer/src/pages/Relatorios.tsx:237-268 | the box is 60 tall for a one-line name and 16 + 18n + 22 for n > 1 lines. Every name line lies inside the box, at least 23 points above the CNPJ line |
| RelatoriosLayout.DeclBoxH | src/renderer/src/pages/Relatorios.tsx:295 | the declaration box height; stated by `DeclGeometry` |
| RelatoriosLayout.Declaration | src/renderer/src/pages/Relatorios.tsx:295-313 | the declaration block draws `DeclOps`, and the cursor moves below the box and a 50-point gap |
| RelatoriosLayout.DeclGeometry | src/renderer/src/pages/Relatorios.tsx:295-311 | the box is drawn first, then one text per line; every line lies inside the box, at least 12.5 points above its bottom and 4.5 below its top |
| RelatoriosLayout.Table | src/renderer/src/pages/Relatorios.tsx:330-396 | the table block draws `TableOps`, and the cursor ends below the total row |
| RelatoriosLayout.TableGeometry | src/renderer/src/pages/Relatorios.tsx:330-396 | data row i is drawn one row height below the row before it. The separator is (rows + 2)·18 long, from the table's bottom up to its top. Every rectangle of the table lies on the separator's span |
| RelatoriosLayout.RowContents | src/renderer/src/pages/Relatorios.tsx:356-373 | a data row is a rectangle of its stripe colour with the upper-cased label and the formatted total on one baseline inside it |
| RelatoriosLayout.Stripe | src/renderer/src/pages/Relatorios.tsx:357 | the row colour; stated by `StripesAlternate` |
| RelatoriosLayout.StripesAlternate | src/renderer/src/pages/Relatorios.tsx:357 | the first row is white, and consecutive rows never share a colour |
| RelatoriosLayout.SignatureOps | src/renderer/src/pages/Relatorios.tsx:400-482 | the signature block; stated by `SignatureGeometry` |
| RelatoriosLayout.SignatureGeometry | src/renderer/src/pages/Relatorios.tsx:400-482 | every signature text starts on or right of the signature line and is centred on it when it fits. The CRC line is drawn exactly when the profile has a CRC. The accountant's name falls back to "CONTADOR RESPONSÁVEL" |
| RelatoriosLayout.PageOps | src/renderer/src/pages/Relatorios.tsx:216-482 | the drawing calls of the whole page, block after block; `Page` states that the cursor-walking code draws exactly these |
| RelatoriosLayout.Page | src/renderer/src/pages/Relatorios.tsx:216-482 | the method that walks the `y` cursor down block by block draws exactly `PageOps`, whose blocks start at the closed-form heights: header, declaration, title, table, signatures in that order; the table ends at `TableEnd` |
| RelatoriosLayout.TableClearsSignatures | src/renderer/src/pages/Relatorios.tsx:237-474 | with at most 12 months, 3 name lines and 7 declaration lines, the table ends above the city and date line |
| RelatoriosLayout.LongNameOverlaps | src/renderer/src/pages/Relatorios.tsx:237-474 | as written, nothing stops a long name from pushing the table into the date line: 6 name lines, 3 declaration lines and 12 months do |
| RelatoriosLayout.CollapseSpacesSpec | src/renderer/src/pages/Relatorios.tsx:487 | `replace(/\s+/g, '_')` leaves no white space and never lengthens the name |
| RelatoriosLayout.CollapseSpacesKeeps | src/renderer/src/pages/Relatorios.tsx:487 | a name without white space is kept as it is |
| RelatoriosLayout.CollapseSpacesRun | src/renderer/src/pages/Relatorios.tsx:487 | a run of white space between words becomes a single '_' |
| RelatoriosLayout.ReportFileName | src/renderer/src/pages/Relatorios.tsx:486-487 | the path is `Faturamento_`, the trade name with each white-space run made one '_' (no white space left, never longer), `_`, the first label, `-a-`, the last label, `.pdf` |
| RelatoriosLayout.PathHasLabelSlash | src/renderer/src/pages/Relatorios.tsx:54-487 | as written, the month labels keep their '/' (`nov/25`), so the suggested path of a report holds a '/', the path separator, right after the name part |
| RelatoriosLayout.FileNameExample | src/renderer/src/pages/Relatorios.tsx:487 | "Padaria  do Zé" is saved under "Padaria_do_Zé": the double space is a single '_' |
| RelatoriosLayout.RazaoNome | src/renderer/src/pages/Relatorios.tsx:220 | `(razaoSocial || nomeFantasia).toUpperCase()`; `GerarPdf` wraps it and signs with it |
| RelatoriosLayout.GerarPdf | src/renderer/src/pages/Relatorios.tsx:164-497 | nothing is produced while signed out or for no month. Otherwise row i holds month i's key, label and revenue, and the total adds the rows. The name and the declaration are wrapped at their widths. The drawn page is `PageOps` of those lines and rows, with the upper-cased name in the signature block. The path is `ReportFileName` of the trade name and the rows |

## Left out

- Firestore and Storage I/O (`query`, `getDocs`, `addDoc`, `updateDoc`, `writeBatch`, `uploadBytes`): records come in as sequences. The outcome is a parameter only for the payslip page's record query, template fetch and save dialog, the pro-labore commit and the CNPJ lookup.
- Failing reads elsewhere are taken as succeeded. The ledger's `fetchLancamentos` and `fetchClientes` (Financeiro.tsx:59-61, 72-74) and the client page's `fetchClientes` (Clientes.tsx:61-63) only log a failure and keep the previous list; `Financeiro.FetchLancamentos`, `Financeiro.FetchClientes` and `Clientes.FetchClientes` model the successful read only. A failing Receita or profile query in the report's `gerarPdf` (Relatorios.tsx:178, 197) ends in a `catch` that only logs and produces no PDF (Relatorios.tsx:492-493); `RelatoriosLayout.GerarPdf` models the successful reads only.
- pdf-lib itself (fonts, `drawImage`, `save`): the page is the list of drawing calls with the coordinates the code computes. The accountant's signature image and its fetch are not drawn.
- Font metrics (`widthOfTextAtSize`), date-fns `parse` and `format` with the pt-BR locale, `toLocaleString('pt-BR')` currency formatting and `toLocaleDateString`: these are function parameters, or fixed tables for the month abbreviations.
- The clock (`new Date()`, `Timestamp.now()`, `Date.now()`): the current month or day is a parameter. The stored timestamps (`geradoEm`, `createdAt` of a new entry) and the uploaded file's name are not modelled.
- Floating point: amounts are exact reals, so binary rounding and NaN are not modelled.
- Money.ToFixed2: does not model exponent notation for amounts of 1e21 and above, or binary rounding before the cent is chosen.
- Text.Upper and Text.UpperSpec: only ASCII letters and the Latin-1 small letters with a one-character capital in the same block are upper-cased. JavaScript's `toUpperCase` also maps 'ß' to "SS", 'ÿ' to U+0178 and 'µ' to U+039C, and it upper-cases letters outside Latin-1. The model leaves those unchanged, so an upper-cased name or label containing them differs from the page's.
- Strings are sequences of Unicode code points; JavaScript counts UTF-16 code units. For characters outside the Basic Multilingual Plane (emoji, for instance), lengths (`cnpj.length < 14`, `filterMonth.length === 7`) and character-by-character replacement (`Holerite.Sanitize` writes one '_' where the page writes two) differ from the page's.
- Sorting.SortDesc: states sorted and a permutation, not that equal keys keep their order (the insertion sort keeps it, as `Array.prototype.sort` does).
- Financeiro.FetchLancamentos: `new Date(data).getTime()` is a total function to integers, so an unparseable date (NaN in the comparator) is not modelled.
- Financeiro.OnSubmit: the upload and the save are taken as succeeded. `Number(data.valor)` is taken as the form's amount. The failure alert ("Erro ao salvar lançamento financeiro."), the modal reset and the re-fetch are not modelled.
- Clientes `onSubmit`: only the payload is modelled. The choice between update and add and the failure alert ("Erro ao salvar cliente.") are not.
- Clientes.Form.FetchCnpj: the e-mail is the address string of the first entry, the founding date goes through `localeDate`, and the `isFetchingCnpj` flag is not modelled.
- ProLabore.HandleGenerateValues: only a failing commit leads to the error alert. A failing query before it is not modelled separately. The success banner and its timer are not modelled either.
- Relatorios `fetchClientes` (the active clients sorted by name, with the first one selected) is not part of this model. The report starts from the list and the selected id.
- Relatorios `gerarPdf`: the `gerando` flag, the contador profile query (the profile is a parameter), the save dialog's result (only logged by the code) and the city-and-date text (a parameter) are not modelled.
- Notificacoes.Run: the `loading` flag, the `refresh` tick and the error path (which keeps the previous list) are not modelled.
- Calendar: years are limited to 0..9999, the range `yyyy` prints with four digits. Report windows are limited to at most 12 months; the page offers 6 or 12.
- MonthPicker: the month names shown in the label and the grid (`MONTHS_FULL`, `MONTHS_SHORT`) and the accent colours are display only.
- Authentication, Login, the Electron main and preload processes, the CNPJ lookup request itself, and the `cn` and `snapshotTo` helpers of `lib/utils.ts` are not part of this model.
- React state outside the modelled classes, the modals and the JSX rendering are not modelled.
