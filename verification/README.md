# simulacion-bancaria: a Dafny model of the banking core

The application is a single-client banking demo with three products:
- a savings account that earns monthly compound interest;
- a checking account with no interest;
- a CDT (a term deposit) that earns simple interest at an annual rate over a term given in months.

This model covers:
- the entity classes and the ledger accounts that mirror their balances;
- the client record;
- the service functions that wrap every entity operation in a `{ success, ..., error }` record;
- the singleton store and its registry sync;
- the page's CDT-creation transition and total;
- the CDT form's parsing, validation and estimate;
- the two projection tables shown in the modals: the growth of one account, and the growth of the whole portfolio.

Each source file is one Dafny module:

| module | file | form |
|---|---|---|
| `Base` | base.dfy | JS numbers (`Finite`, `NaN`, the infinities), `Option`, `Result` and `Outcome` for thrown errors |
| `SavingModel` | saving_account.dfy | class `SavingAccount`, plus the compound-interest formula and its lemmas |
| `CheckingModel`, `AppCheckingModel` | checking_account.dfy, app_checking_account.dfy | class `CheckingAccount` with a private balance |
| `CdtModel`, `AppCdtModel` | cdt.dfy, app_cdt.dfy | class `Cdt` |
| `AccountModel`, `AppAccountModel` | account.dfy, app_account.dfy | ledger class `Account` |
| `ClientModel` | client.dfy | class `Client` |
| `AccountService` | account_service.dfy | the service wrappers; maturity and total as functions |
| `Store` | store.dfy | class `Session`: the singletons and the registry array |
| `HomePage` | page.dfy | CDT creation as written, and corrected |
| `CreateCdtForm` | create_cdt.dfy | the form's coercion, validation, submit and estimate |
| `BalanceProjection` | show_balance.dfy | type guards and the growth table of one account |
| `PortfolioProjection` | portfolio_simulation.dfy | the portfolio table |

How the source is represented:
- Money is `real`.
- An amount that the source tests with `isFinite` or `isNaN` is a `JsNumber`.
- A thrown error becomes `Err(message)` or `Fail(message)`, carrying the source's own message text.
- Each loop that builds a table becomes a `method` with a `while` loop. It is proved to produce row `k` equal to a row function of the inputs. The properties of the table are then proved about those row functions.

## Model

| member | source | states |
|---|---|---|
| SavingModel.SavingAccount.constructor | simulacion-bancaria/app/models/SavingAccount.ts:8-18 | id kept; a missing balance or rate defaults to 0 |
| SavingModel.SavingAccount.CalculateRate | simulacion-bancaria/app/models/SavingAccount.ts:25-33 | fails with "Meses inválidos" exactly when months is not a finite non-negative integer; otherwise returns `Balance * ((1 + Rate)^months - 1)`; the zero shortcut agrees with that formula |
| SavingModel.SavingAccount.Deposit | simulacion-bancaria/app/models/SavingAccount.ts:38-44 | fails exactly for a non-finite or non-positive amount, with its message and the balance unchanged; otherwise the balance grows by the amount and is returned |
| SavingModel.SavingAccount.Retire | simulacion-bancaria/app/models/SavingAccount.ts:50-59 | invalid amount and insufficient funds are told apart by message; failure leaves the balance unchanged; success subtracts the amount; a non-negative balance stays non-negative |
| SavingModel.Interest | simulacion-bancaria/app/models/SavingAccount.ts:29-32 | the shortcut-then-formula computation equals the compound-interest formula for every input |
| SavingModel.ShortcutIsConsistent | simulacion-bancaria/app/models/SavingAccount.ts:29-31 | the formula is 0 whenever rate, balance or months is 0, so the shortcut changes no result |
| SavingModel.PowOfOne | simulacion-bancaria/app/models/SavingAccount.ts:32 | `1^n = 1`, the rate-0 case of the formula |
| SavingModel.PowMonotone | simulacion-bancaria/app/models/SavingAccount.ts:32 | `(1 + rate)^n` does not decrease in `n` when the rate is not negative |
| SavingModel.InterestNonNegative | simulacion-bancaria/app/models/SavingAccount.ts:20-33 | with a non-negative balance and rate, interest is at least 0 |
| SavingModel.InterestMonotone | simulacion-bancaria/app/models/SavingAccount.ts:20-33 | with a non-negative balance and rate, interest does not decrease as months grow |
| CheckingModel.CheckingAccount.constructor | simulacion-bancaria/models/CheckingAccount.ts:10-13 | id and opening balance are stored |
| CheckingModel.CheckingAccount.Balance | simulacion-bancaria/models/CheckingAccount.ts:15-17 | the `Balance` getter: a read of the private balance with no effect |
| CheckingModel.CheckingAccount.Deposit | simulacion-bancaria/models/CheckingAccount.ts:19-23 | a non-positive amount fails with its message and changes nothing; otherwise the balance grows by the amount |
| CheckingModel.CheckingAccount.Retire | simulacion-bancaria/models/CheckingAccount.ts:25-30 | non-positive and over-balance amounts fail with their messages and change nothing; otherwise the amount is subtracted |
| AppCheckingModel.CheckingAccount.constructor | simulacion-bancaria/app/models/CheckingAccount.ts:7-11 | account key, id and opening balance are stored |
| AppCheckingModel.CheckingAccount.Balance | simulacion-bancaria/app/models/CheckingAccount.ts:13-15 | the `Balance` getter: a read of the private balance with no effect |
| AppCheckingModel.CheckingAccount.Deposit | simulacion-bancaria/app/models/CheckingAccount.ts:17-21 | as the other checking account's deposit |
| AppCheckingModel.CheckingAccount.Retire | simulacion-bancaria/app/models/CheckingAccount.ts:23-28 | as the other checking account's withdrawal |
| CdtModel.Cdt.constructor | simulacion-bancaria/models/CDT.ts:16-22 | fields as given; the CDT starts active |
| CdtModel.Cdt.ClosedCdt | simulacion-bancaria/models/CDT.ts:25-28 | marks the CDT closed and returns its principal, not its maturity |
| CdtModel.CloseTwice | simulacion-bancaria/models/CDT.ts:25-28 | closing is unguarded and idempotent: a second close returns the same principal and leaves the CDT as the first did |
| AppCdtModel.Cdt.constructor | simulacion-bancaria/app/models/CDT.ts:9-16 | the balance starts equal to the opening amount; the CDT starts active |
| AppCdtModel.Cdt.ClosedCdt | simulacion-bancaria/app/models/CDT.ts:19-22 | marks the CDT closed and returns the balance |
| AppCdtModel.CloseTwice | simulacion-bancaria/app/models/CDT.ts:19-22 | closing twice returns the same balance both times; the CDT ends closed with every other field as it was |
| AccountModel.Account.constructor | simulacion-bancaria/models/Account.ts:10-14 | ids stored; the balance defaults to 0 |
| AccountModel.Account.GetBalance | simulacion-bancaria/models/Account.ts:16-18 | a read of the stored balance with no effect |
| AccountModel.Account.SetBalance | simulacion-bancaria/models/Account.ts:20-25 | fails with "Balance must be a valid number" exactly for NaN, leaving the balance; any other value, infinities included, is stored |
| AppAccountModel.Account.constructor | simulacion-bancaria/app/models/Account.ts:8-12 | ids stored; the total balance defaults to 0 |
| AppAccountModel.Account.GetBalance | simulacion-bancaria/app/models/Account.ts:14-16 | a read of the stored total balance with no effect |
| AppAccountModel.Account.SetBalance | simulacion-bancaria/app/models/Account.ts:22-27 | the `Balance` setter: fails exactly for NaN with its own message; otherwise `GetBalance` returns the new value |
| ClientModel.Client.constructor | simulacion-bancaria/models/Client.ts:19-23 | name, id and the optional account list are stored |
| ClientModel.Client.CreateAccount | simulacion-bancaria/models/Client.ts:29-34 | a missing list becomes empty first; the account is appended and the earlier accounts keep their order |
| AccountService.DepositToSavingAccount | simulacion-bancaria/services/AccountService.ts:11-21 | success exactly for a finite positive amount; the reported balance is the account's; failure changes nothing |
| AccountService.WithdrawFromSavingAccount | simulacion-bancaria/services/AccountService.ts:27-40 | success exactly for a finite positive amount within the balance; each refusal has its message and changes nothing |
| AccountService.DepositToCheckingAccount | simulacion-bancaria/services/AccountService.ts:45-55 | success exactly for a positive amount, with no finiteness test; failure changes nothing |
| AccountService.WithdrawFromCheckingAccount | simulacion-bancaria/services/AccountService.ts:60-73 | success exactly for a positive amount within the balance; refusals change nothing |
| AccountService.CalculateSavingAccountInterest | simulacion-bancaria/services/AccountService.ts:78-88 | success exactly for a non-negative integer month count, with the compound interest and balance plus interest; otherwise 0, the balance and "Meses inválidos" |
| AccountService.MaturityOf | simulacion-bancaria/services/AccountService.ts:94-99 | final balance is principal plus interest; a 12-month term earns exactly `balance * rate`; zero term, rate or principal earns 0; non-negative inputs never lose money |
| AccountService.CalculateCdtMaturity | simulacion-bancaria/services/AccountService.ts:94-99 | the maturity of the CDT's current principal, rate and term, active or not |
| AccountService.MaturityExample | simulacion-bancaria/store/index.ts:13 | the initial CDT (1,000,000 at 5% for 12 months) matures at 1,050,000 with 50,000 of interest |
| AccountService.CloseCdt | simulacion-bancaria/services/AccountService.ts:104-115 | an inactive CDT is refused with its principal and "CDT ya estaba cerrado"; an active one is closed and reports its maturity balance; the principal, term and rate are untouched |
| AccountService.CalculateTotalBalance | simulacion-bancaria/services/AccountService.ts:120-122 | the sum of the three current balances, read without effect; with non-negative balances it is at least the CDT principal. Its exactness across transitions is stated by the five `Total…` members below |
| AccountService.TotalAfterSavingDeposit | simulacion-bancaria/services/AccountService.ts:11-21 | an accepted savings deposit raises the total by exactly the amount; a refusal leaves it unchanged |
| AccountService.TotalAfterSavingWithdrawal | simulacion-bancaria/services/AccountService.ts:27-40 | an accepted savings withdrawal lowers the total by exactly the amount; a refusal leaves it unchanged |
| AccountService.TotalAfterCheckingDeposit | simulacion-bancaria/services/AccountService.ts:45-55 | an accepted checking deposit raises the total by exactly the amount; a refusal leaves it unchanged |
| AccountService.TotalAfterCheckingWithdrawal | simulacion-bancaria/services/AccountService.ts:60-73 | an accepted checking withdrawal lowers the total by exactly the amount; a refusal leaves it unchanged |
| AccountService.TotalAfterCloseCdt | simulacion-bancaria/services/AccountService.ts:104-115 | closing a CDT, accepted or refused, never changes the total, which keeps counting the principal |
| Store.Session.constructor | simulacion-bancaria/store/index.ts:7-20 | the initial client, accounts and CDT with their constants; the three ledger entries are distinct, in CDT, savings, checking order, carry the client's id and mirror the balances |
| Store.Session.SyncAccountsRegistry | simulacion-bancaria/store/index.ts:26-30 | afterwards each ledger entry holds its instance's balance; an already mirrored ledger is left unchanged |
| HomePage.TotalBalance | simulacion-bancaria/app/page.tsx:46-50 | the page total is the service total of the three singletons; `HandleAccountUpdated` and `HandleCreateCdt` state how it moves |
| HomePage.HandleAccountUpdated | simulacion-bancaria/app/page.tsx:22-25 | after an account change the ledger mirrors every balance, and the page total is unchanged by the sync |
| HomePage.HandleCreateCdt | simulacion-bancaria/app/page.tsx:28-43 | the CDT is always overwritten and active; success exactly when the debit is valid, then checking is debited and the ledger synced; on failure checking and the ledger are unchanged and the total rises by the new principal minus the old |
| HomePage.OverdrawnCreationExample | simulacion-bancaria/app/page.tsx:28-43 | from the initial state, a 2,000,000 CDT fails and the total grows from 4,500,000 to 5,500,000 |
| HomePage.HandleCreateCdtChecked | simulacion-bancaria/app/page.tsx:28-43 | corrected transition: success exactly when the debit is valid; on failure nothing changes |
| HomePage.CheckedCreationExample | simulacion-bancaria/app/page.tsx:28-43 | the same overdrawn request leaves the total at 4,500,000 |
| CreateCdtForm.FieldValue | simulacion-bancaria/components/CreateCDT.tsx:26-28 | `parseFloat(v) \|\| 0`: 0 exactly for unparsable text or zero; any other number is kept |
| CreateCdtForm.MonthsValue | simulacion-bancaria/components/CreateCDT.tsx:26-28 | the same coercion for the month select |
| CreateCdtForm.ValidateCdtForm | simulacion-bancaria/components/CreateCDT.tsx:32-49 | accepted exactly when the id is not blank, balance > 0, 1 <= months <= 60 and 0 < rate <= 0.2; otherwise the first failing check's message |
| CreateCdtForm.Submit | simulacion-bancaria/components/CreateCDT.tsx:32-54 | the callback runs exactly for an accepted form, with `(id, months, balance, rate)` |
| CreateCdtForm.EstimateOf | simulacion-bancaria/components/CreateCDT.tsx:83-84 | the estimate is the service's maturity for the form's values |
| CreateCdtForm.AcceptedEstimateBounds | simulacion-bancaria/components/CreateCDT.tsx:38-49 | for an accepted form the estimated interest is positive and at most the principal |
| BalanceProjection.KindOf | simulacion-bancaria/components/ModalShowBalance.tsx:21-37 | the kind is savings exactly when the savings guard holds, CDT exactly when the CDT guard holds and the savings guard does not, and checking exactly when neither holds |
| BalanceProjection.ShapeOf | simulacion-bancaria/components/ModalShowBalance.tsx:21-37 | every account class is classified as its own kind |
| BalanceProjection.GrowthData | simulacion-bancaria/components/ModalShowBalance.tsx:40-93 | savings and checking tables have `months + 1` rows, row `k` holding month `k`'s compound or flat values; the CDT table runs linear rows to the term, then maturity rows |
| BalanceProjection.CdtRowMeetsMaturity | simulacion-bancaria/components/ModalShowBalance.tsx:57-79 | the last linear CDT row equals the maturity, so the pinned rows continue it |
| BalanceProjection.LinearInterestMonotone | simulacion-bancaria/components/ModalShowBalance.tsx:60-63 | linear interest does not decrease with the month for non-negative balance and rate |
| BalanceProjection.CdtRowsNonDecreasing | simulacion-bancaria/components/ModalShowBalance.tsx:55-80 | CDT table balances never decrease month over month |
| BalanceProjection.SavingRowsNonDecreasing | simulacion-bancaria/components/ModalShowBalance.tsx:43-54 | savings table balances never decrease, and month 0 earns nothing |
| BalanceProjection.GrowthPercentage | simulacion-bancaria/components/ModalShowBalance.tsx:99 | 0 for a non-positive initial balance; otherwise the interest as a percentage of it |
| PortfolioProjection.PortfolioData | simulacion-bancaria/components/ModalPortfolioSimulation.tsx:36-77 | `months + 1` rows; row `i` is the projection at month `i`, and the checking balance is the same in every row |
| PortfolioProjection.ClosedCdtIsFlat | simulacion-bancaria/components/ModalPortfolioSimulation.tsx:48-60 | an inactive CDT contributes its principal every month |
| PortfolioProjection.OpenCdtMatchesGrowthTable | simulacion-bancaria/components/ModalPortfolioSimulation.tsx:48-60 | an active CDT's portfolio column equals the single-account CDT table month by month |
| PortfolioProjection.FirstRowHasNoGrowth | simulacion-bancaria/components/ModalPortfolioSimulation.tsx:48-64 | when the CDT is closed or its term is not negative, month 0's total is today's total and its total interest is 0 (an active CDT with a negative term shows its maturity value at month 0) |
| PortfolioProjection.TotalInterestNonNegative | simulacion-bancaria/components/ModalPortfolioSimulation.tsx:39-73 | with non-negative balances, rates and term, no account is below today's balance and total interest is never negative |

## Left out

- Rendering, React state, modals and formatting (`toFixed`, `toLocaleString`) are not modelled. Only the values the components compute are.
- `components/CardAccount.tsx`, `Summary.tsx`, `UserProfile.tsx`, `controllers/IndexController.ts` and `app/Instance/*` are not part of this model. They are presentation and wiring over the modelled operations.
- `models/SavingAccount.ts`, which the store and services import, is not part of this model. The savings class follows `app/models/SavingAccount.ts`, called as `(Id, Balance, Rate)` the way the store calls it. Its `IdAccount` field is dropped.
- Arithmetic is exact on `real`. IEEE-754 rounding and overflow to infinity are not modelled.
- `Math.pow` is modelled for whole exponents only. These are the only exponents that reach it.
- Checking accounts and their service wrappers take a finite amount. The source never tests finiteness on that path, so a NaN or infinite amount is not modelled there.
- CreateCdtForm.FieldValue: `parseFloat` is a parameter (`None` for NaN). Text parsing to `Infinity` is not modelled.
- ClientModel.Client: the account list is a value. The source stores the caller's array by reference and pushes onto it, so a list passed to the constructor would also grow in the caller; that sharing is not modelled (the store passes no list).
- The `typeof x !== 'number'` tests in the ledger setters disappear under Dafny's typing.
- The CDT term is a whole number of months. The form offers it from a fixed list of integers.
- `Date.now()` for the default CDT id and the `setTimeout` reset after a submit are not modelled. Both are clock and timer effects.
- Which CDT instance the page passes to each modal is a rendering detail and is not modelled.
- Store.Session replaces the module-level singletons with one explicit object. The ledger entries mirror the instances by array position, as in the source.

## Findings

| source | as written | input that shows it | evidently intended | confidence | as-written member | corrected member |
|---|---|---|---|---|---|---|
| simulacion-bancaria/app/page.tsx:28-43 | the CDT singleton is overwritten and reopened before `checkingAccountInstance.Retire(balance)`. When `Retire` throws there is no rollback: the new CDT stays, checking is not debited and the ledger is not synced | initial store, create a CDT of 2,000,000 at 5% for 12 months while checking holds 1,500,000: the page total goes from 4,500,000 to 5,500,000 | check the debit first, and leave every account and the ledger unchanged when it is refused | not executed | HomePage.HandleCreateCdt, HomePage.OverdrawnCreationExample | HomePage.HandleCreateCdtChecked, HomePage.CheckedCreationExample |
