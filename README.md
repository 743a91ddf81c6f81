# Cuenta / Banco ledger model

A Dafny model of the small bank-account ledger that the JUnit class
`CuentaTest` drives:

- `Cuenta` is an account. It holds an owner (`persona`), an exact decimal
  balance (`saldo`) and an optional back-reference to its `Banco`.
- `Banco` is a bank. It holds a name (`nombre`) and an ordered list of
  accounts (`cuentas`). Duplicates are allowed.

The classes' own source files are not part of this model. Their behaviour is
rebuilt from the calls the test makes and the assertions it checks.

Layout:

- `dinero.dfy`, module `Dinero`: balances as values. The exact decimal balance
  is a Dafny `real`, which is exact rational arithmetic. The module holds the
  insufficient-funds exception, the debit, credit and transfer arithmetic, and
  the lemmas about them: inverse operations, conservation of a two-account sum,
  and conservation of a ledger total.
- `models.dfy`, module `Models`: the two classes, with their state updated in
  place. `Debito`, `Credito`, `SetSaldo`, `SetPersona`, `SetNombre`,
  `AddCuenta` and `Transferir` are methods with `modifies` clauses. The
  `Registradas` predicate is the back-reference invariant. The two-state lemma
  `TransferirConservaTotal` lifts transfer conservation to the whole list of a
  bank that lists each account once (`Distintas`); an account listed twice has
  its change counted twice. `TransferirEnBanco` is a transfer through a bank
  that lists both accounts and keeps the bank's total.
- `cuenta_test.dfy`, module `CuentaTest`: each test scenario is a client
  method. It makes the same calls as the test, and its postconditions are the
  test's assertions, proved from the classes' contracts alone. The module also
  has the `filter(...).findFirst()` / `anyMatch` search over a bank's accounts,
  written as a loop.

Modelling choices the test does not pin down:

- A debit is refused exactly when the new balance would be negative. A debit
  equal to the balance succeeds and leaves 0.
- A refused debit leaves the balance unchanged.
- A transfer whose debit is refused credits nothing and passes the exception
  on.
- A thrown exception is an `Err(...)` result that the method returns; a call
  that completes returns `Ok(())`.
- The exception message is "Dinero Insuficiente", as the test asserts.
- A new `Banco` has the empty name.

## Model

| member | source | states |
|---|---|---|
| `Dinero.Debitar` | src/test/java/org/junit5/ejemplo/models/CuentaTest.java:120-127 | a debit succeeds iff the amount is at most the balance; then the new balance plus the amount is the old balance and is non-negative; otherwise it fails with message "Dinero Insuficiente" |
| `Dinero.Acreditar` | src/test/java/org/junit5/ejemplo/models/CuentaTest.java:95-100 | a credit is undone by subtracting the amount again, and never lowers the balance for a non-negative amount |
| `Dinero.Transferencia` | src/test/java/org/junit5/ejemplo/models/CuentaTest.java:106-113 | a transfer succeeds iff the source covers the amount; on success the balances become exactly source − amount and destination + amount, so their sum is unchanged; on failure the error is the insufficient-funds exception |
| `Dinero.AcreditarLuegoDebitar` | src/test/java/org/junit5/ejemplo/models/CuentaTest.java:95-100 | a credit followed by a debit of the same amount restores any non-negative balance exactly |
| `Dinero.DebitarLuegoAcreditar` | src/test/java/org/junit5/ejemplo/models/CuentaTest.java:85-90 | a successful debit followed by a credit of the same amount restores the balance exactly |
| `Dinero.TransferenciaConservaTotal` | src/test/java/org/junit5/ejemplo/models/CuentaTest.java:141-144 | debiting one position and crediting another of a list of balances leaves the total unchanged |
| `Dinero.TransferenciaEnLibro` | src/test/java/org/junit5/ejemplo/models/CuentaTest.java:141-145 | if only two positions of a ledger changed and their sum did not, the ledger's total is unchanged |
| `Dinero.ParteEntera` | src/test/java/org/junit5/ejemplo/models/CuentaTest.java:89 | `intValue` is a 32-bit int congruent modulo 2^32 to the integer part truncated toward zero, and equal to it when that part fits in 32 bits |
| `Models.Saldos` | src/test/java/org/junit5/ejemplo/models/CuentaTest.java:142-145 | the balances of a list of accounts, one per account, in the same order |
| `Models.Cuenta.constructor` | src/test/java/org/junit5/ejemplo/models/CuentaTest.java:27 | a new account stores the given owner and balance unchanged and has no bank |
| `Models.Cuenta.Debito` | src/test/java/org/junit5/ejemplo/models/CuentaTest.java:120-127 | throws iff the old balance is below the amount, with the insufficient-funds exception and the balance unchanged; otherwise the balance drops by exactly the amount and stays non-negative; agrees with `Debitar` |
| `Models.Cuenta.Credito` | src/test/java/org/junit5/ejemplo/models/CuentaTest.java:95-100 | the balance grows by exactly the amount, unconditionally |
| `Models.Cuenta.SetSaldo` | src/test/java/org/junit5/ejemplo/models/CuentaTest.java:316 | replaces the balance and nothing else |
| `Models.Cuenta.SetPersona` | src/test/java/org/junit5/ejemplo/models/CuentaTest.java:318 | replaces the owner and nothing else |
| `Models.Cuenta.Equals` | src/test/java/org/junit5/ejemplo/models/CuentaTest.java:73-77 | structural `equals` over owner and balance; an account is equal to itself |
| `Models.EqualsEsEquivalencia` | src/test/java/org/junit5/ejemplo/models/CuentaTest.java:73-77 | structural `equals` over owner and balance is reflexive, symmetric and transitive |
| `Models.Banco.constructor` | src/test/java/org/junit5/ejemplo/models/CuentaTest.java:137 | a new bank has no accounts, so the back-reference invariant holds |
| `Models.Banco.Registradas` | src/test/java/org/junit5/ejemplo/models/CuentaTest.java:138-146 | the back-reference invariant: every account the bank lists has its bank reference pointing to this bank |
| `Models.Banco.SetNombre` | src/test/java/org/junit5/ejemplo/models/CuentaTest.java:140 | replaces the name; accounts and back-references are untouched, so the invariant is kept |
| `Models.Banco.AddCuenta` | src/test/java/org/junit5/ejemplo/models/CuentaTest.java:137-146 | appends the account after the existing ones, sets its back-reference to this bank, and keeps the back-reference invariant |
| `Models.Banco.Transferir` | src/test/java/org/junit5/ejemplo/models/CuentaTest.java:106-113 | throws iff the source balance is below the amount, and then changes no balance; otherwise the source loses and the destination gains exactly the amount; the sum of the two balances is always unchanged; a self-transfer changes nothing; between two different accounts the old and new balances agree with `Transferencia` |
| `Models.TransferirConservaTotal` | src/test/java/org/junit5/ejemplo/models/CuentaTest.java:141-145 | a step that keeps the two accounts' sum and touches no other balance, as `Transferir` guarantees, keeps the total of a list of distinct accounts that contains both; `TransferirEnBanco` proves the same conclusion for a call of `Transferir` |
| `Models.TransferirEnBanco` | src/test/java/org/junit5/ejemplo/models/CuentaTest.java:137-141 | a transfer between two accounts of a bank that lists each account once throws iff the source balance is below the amount, and the total of the bank's balances is unchanged either way |
| `CuentaTest.CuentaInicial` | src/test/java/org/junit5/ejemplo/models/CuentaTest.java:25-29 | the fixture account is fresh, owned by "Cristian", holds 100.12345 and has no bank |
| `CuentaTest.PrimeraConPersona` | src/test/java/org/junit5/ejemplo/models/CuentaTest.java:147-152 | finds an account iff some listed account has the owner; the one found has that owner, and no earlier listed account does |
| `CuentaTest.NombreYSaldo` | src/test/java/org/junit5/ejemplo/models/CuentaTest.java:52-68 | the fixture reports owner "Cristian" and balance exactly 100.12345, which is positive |
| `CuentaTest.ReferenciaCuenta` | src/test/java/org/junit5/ejemplo/models/CuentaTest.java:73-77 | two accounts built separately from the same owner and balance are equal, though they are distinct objects |
| `CuentaTest.DebitoCuenta` | src/test/java/org/junit5/ejemplo/models/CuentaTest.java:85-90 | debiting 90 from 100.12345 succeeds and leaves exactly 10.12345, whose integer part is 10 |
| `CuentaTest.CreditoCuenta` | src/test/java/org/junit5/ejemplo/models/CuentaTest.java:95-100 | crediting 90 to 100.12345 leaves exactly 190.12345, whose integer part is 190 |
| `CuentaTest.TransferirDineroCuentas` | src/test/java/org/junit5/ejemplo/models/CuentaTest.java:106-113 | transferring 500000 from 900000 to 1000000 succeeds and leaves 400000 and 1500000 |
| `CuentaTest.DineroInsuficienteLanzada` | src/test/java/org/junit5/ejemplo/models/CuentaTest.java:120-127 | debiting 1000 from 100.12345 throws with message "Dinero Insuficiente", and the balance stays 100.12345 |
| `CuentaTest.RelacionBancoCuentas` | src/test/java/org/junit5/ejemplo/models/CuentaTest.java:134-154 | after two registrations, naming and a transfer: balances 1500000 and 400000, two accounts listed, each account's bank reports "Bancolombia", the search finds "Cristian Doe", and the bank's back-reference invariant holds |
| `CuentaTest.DebitoCuentaMonto` | src/test/java/org/junit5/ejemplo/models/CuentaTest.java:281-311 | any debit below the fixture balance succeeds and leaves exactly the difference, which is positive |
| `CuentaTest.DebitoCuentaSaldoMonto` | src/test/java/org/junit5/ejemplo/models/CuentaTest.java:313-323 | after replacing the balance, a smaller debit succeeds and leaves exactly the positive difference, and the owner is replaced |

## Left out

- The source of `Cuenta`, `Banco` and `DineroInsuficienteException` is not part of this model. Behaviour the test does not observe is listed above as a modelling choice.
- Decimal rendering (`toPlainString`) and `BigDecimal` scale are not modelled. Balances are exact values, so `equals` compares values, not scales.
- The `doubleValue()` comparisons at lines 66, 248 and 259 are left out. They are binary floating point.
- JUnit machinery is left out: lifecycle hooks, console printing, tags, display names, nesting and repetition bookkeeping. These are test scaffolding.
- OS, JRE, system-property and environment-variable gating and dumping (lines 156-240) are left out. They inspect the host.
- The assertions that run only under an assumption on the `ENV` system property (lines 244-251 and 256-260) are left out. They depend on the host. The unconditional `compareTo` assertions of `testSaldoCuentaDev2` (lines 261-262) are the ones `CuentaTest.NombreYSaldo` states.
- The parameter sources `/data.csv` and `/data1.csv` are left out. They are files not available to the model. Their tests, `testDebitoCuentaCsvFileSource` and `testDebitoCuentaCsvFileSource2`, are covered by `CuentaTest.DebitoCuentaMonto` and `CuentaTest.DebitoCuentaSaldoMonto`, the client methods of the inline rows.
- Parameter rows that cannot pass are not stated as properties: amounts 200 to 1000 against 100.12345 (lines 282, 290, 339), and rows "299,300", "400,500" and "1000,1000" (line 314). The model makes each of them throw, or leave 0 for the last row.
- No row at line 314 can pass as a whole. The remaining rows "200,100", "250,200" and "750,700" compare "Cristian" with "cristian", "Nathalia" with "nathalia" and "Lorem" with "Ipsum" at line 321, and those differ. Only the balance part of those rows is modelled (`CuentaTest.DebitoCuentaSaldoMonto`).
- CuentaTest.DebitoCuentaMonto: requires the amount below the fixture balance, because the listed amounts at or above it cannot pass.
- CuentaTest.DebitoCuentaSaldoMonto: requires the amount below the new balance, for the same reason.
- The assertion `assertEquals(esperado, actual)` at line 321 compares two test strings. It does not touch the model.
- Getters are left out as separate members. `getSaldo`, `getPersona`, `getBanco`, `getNombre` and `getCuentas` are reads of the fields.
- Aliasing through the list that `getCuentas` returns is left out. The model's list changes only through `AddCuenta`.
- `hashCode` and `setBanco` are left out. No test calls them directly; `AddCuenta` sets the back-reference itself.
- `null` owners, balances and names are not modelled. Dafny strings and reals are never null, and a new bank's name is the empty string.
- Models.Banco.AddCuenta: keeps the back-reference invariant of this bank only. Registering the same account with a second bank repoints it, and the first bank's invariant then fails, as it would in the source.
- Concurrency is left out. The core is single-threaded.
