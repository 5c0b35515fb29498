# Girokonto — a verified model of the checking account

This project models the checking account `Girokonto` of the bank example
(`src/main/java/edu/stachtiedmann/bank/Girokonto.java`): an account with a
balance (`kontostand`), a locked flag (`gesperrt`) and an account number
(`kontonummer`), all inherited from the base class `Konto`, plus its own
overdraft limit (`dispo`). Its operations are the two constructors,
`getDispo`, `setDispo`, `reichtStand`, the outgoing transfer
`ueberweisungAbsenden` and the incoming transfer `ueberweisungEmpfangen`.

Three modules:

- `KontoSpec` (`konto_spec.dfy`): the account as a value (`Konto`) and every
  operation as a pure step `Step(result, konto)` giving the outcome the caller
  sees and the account afterwards. The two Java exceptions are the values
  `Failure(Gesperrt(kontonummer))` and `Failure(IllegalArgument)` of a
  `Result`; a Java `null` string is `None` of an `Option`.
- `Bank` (`girokonto.dfy`): the class `Girokonto`, whose fields the methods
  update in place. Each method is proved to return exactly what the matching
  `KontoSpec` function returns and to leave the object in exactly the state
  that function gives, and to keep the object invariant `dispo >= 0`. The
  account number is a `const` field, so no method can change it. `Example`
  replays a short account history (a debit to the full limit, a refused
  debit, locking, a credit on the locked account, a negative amount).
- `KontoTraces` (`konto_traces.dfy`): lemmas over any sequence of calls
  (`Run`), and relations between single calls.

Amounts are `real`, not Java `double`: the model is about the checks and the
order they are made in, not about rounding. The counterparty parameters
(`nachKontonr`, `nachBlz`, `vonKontonr`, `vonBlz`) are kept in the signatures
and, as in the source, never used: the other account is at another bank and is
not touched.

The name and purpose strings of a transfer are refused only when they are
`null` (`None`). An empty string passes validation, because the code checks
`== null` only (Girokonto.java:79 and :99). A stricter contract would refuse
empty names as well. The model follows the code.

Likewise, the doc comment of `setDispo` (Girokonto.java:52) asks for a limit
greater than 0, but the code (line 56) and its `@throws` refuse only negative
limits. The model follows the code, so a limit of exactly 0 is accepted.

## Model

| member | source | states |
|---|---|---|
| `KontoSpec.Standard` | src/main/java/edu/stachtiedmann/bank/Girokonto.java:19-22 | the default account has number 99887766 and limit 500 (and a valid, non-negative limit) |
| `KontoSpec.Eroeffnen` | src/main/java/edu/stachtiedmann/bank/Girokonto.java:33-38 | opening fails with IllegalArgument exactly when the limit is negative; otherwise the account carries the given number and exactly the given limit |
| `KontoSpec.SetDispo` | src/main/java/edu/stachtiedmann/bank/Girokonto.java:55-59 | fails with IllegalArgument exactly for a negative limit and then leaves the account unchanged; otherwise only the limit changes, to the new value, and stays non-negative |
| `KontoSpec.UeberweisungAbsenden` | src/main/java/edu/stachtiedmann/bank/Girokonto.java:76-86 | a locked account fails with Gesperrt carrying its own number for every amount and argument, unchanged; an unlocked one fails with IllegalArgument, unchanged, for a negative amount or a null recipient or purpose; with valid arguments the result is true exactly when `reichtStand` holds; true means the balance fell by exactly the amount and is still at least `-dispo`; any other outcome leaves the account unchanged |
| `KontoSpec.UeberweisungEmpfangen` | src/main/java/edu/stachtiedmann/bank/Girokonto.java:98-102 | fails with IllegalArgument exactly for a negative amount or a null sender name or purpose, leaving the account unchanged; otherwise only the balance changes, by exactly the amount; the balance never falls; the lock plays no part |
| `KontoSpec.ReichtStand` | src/main/java/edu/stachtiedmann/bank/Girokonto.java:112-118 | the amount can be paid exactly when it is at most the balance plus the overdraft limit; this is the condition the debit at line 81 also tests, and `KontoSpec.UeberweisungAbsenden` ties its outcome to it |
| `Bank.Girokonto.constructor` | src/main/java/edu/stachtiedmann/bank/Girokonto.java:19-22 | the new object is the default account: number 99887766, limit 500 |
| `Bank.Girokonto.WithDispo` | src/main/java/edu/stachtiedmann/bank/Girokonto.java:33-38 | the success path of the three-argument constructor: requires a non-negative limit and yields a valid account whose state is what `KontoSpec.Eroeffnen` gives (the given number and limit); `Create` handles the negative case |
| `Bank.Girokonto.Create` | src/main/java/edu/stachtiedmann/bank/Girokonto.java:33-38 | a negative limit yields IllegalArgument and no account; otherwise a fresh, valid account with the given number and limit |
| `Bank.Girokonto.GetDispo` | src/main/java/edu/stachtiedmann/bank/Girokonto.java:45-47 | returns the limit, which is never negative |
| `Bank.Girokonto.ReichtStand` | src/main/java/edu/stachtiedmann/bank/Girokonto.java:112-118 | a read-only query, true exactly when balance minus amount is at least `-dispo` |
| `Bank.Girokonto.SetDispo` | src/main/java/edu/stachtiedmann/bank/Girokonto.java:55-59 | outcome and new state are those of `KontoSpec.SetDispo`; the limit stays non-negative |
| `Bank.Girokonto.UeberweisungAbsenden` | src/main/java/edu/stachtiedmann/bank/Girokonto.java:76-86 | outcome and new state are those of `KontoSpec.UeberweisungAbsenden`; the limit stays non-negative |
| `Bank.Girokonto.UeberweisungEmpfangen` | src/main/java/edu/stachtiedmann/bank/Girokonto.java:98-102 | outcome and new state are those of `KontoSpec.UeberweisungEmpfangen`; the limit stays non-negative |
| `KontoTraces.RunKeepsValid` | src/main/java/edu/stachtiedmann/bank/Girokonto.java:33-59 | after any sequence of calls the limit is still non-negative |
| `KontoTraces.RunKeepsKontonummer` | src/main/java/edu/stachtiedmann/bank/Girokonto.java:55-102 | after any sequence of calls the account number is the one the account started with |
| `KontoTraces.LockedBalanceNeverFalls` | src/main/java/edu/stachtiedmann/bank/Girokonto.java:76-102 | as long as a locked account is not unlocked, no sequence of calls lowers its balance and it stays locked |
| `KontoTraces.TransfersKeepWithinDispo` | src/main/java/edu/stachtiedmann/bank/Girokonto.java:81-101 | starting within the limit, any sequence of transfers keeps the limit and keeps the balance at or above `-dispo` |
| `KontoTraces.SetDispoIgnoresBalance` | src/main/java/edu/stachtiedmann/bank/Girokonto.java:55-59 | there is a valid account within its limit on which a successful `setDispo` leaves the balance below the new `-dispo` |
| `KontoTraces.EmpfangenIgnoresLock` | src/main/java/edu/stachtiedmann/bank/Girokonto.java:98-102 | the same incoming transfer has the same outcome and the same resulting balance on a locked and an unlocked account |
| `KontoTraces.AbsendenThenEmpfangen` | src/main/java/edu/stachtiedmann/bank/Girokonto.java:76-102 | a successful debit followed by a credit of the same amount gives back the original account |

## Left out

- `waehrungswechsel` (Girokonto.java:120-129): it depends on `Konto.waehrungswechsel` and the currency type `Waehrung`, neither of which is part of this model, and on floating-point division. It only changes the limit through `setDispo`, so the limit stays non-negative whenever the conversion yields a non-negative value.
- `toString`: display text only.
- `Serializable`: Java serialisation plumbing.
- IEEE `double` behaviour (rounding, NaN, infinities): amounts are real numbers. In Java a NaN amount passes the `betrag < 0` check; the model has no NaN.
- The owner (`Kunde`, including `Kunde.MUSTERMANN`) and the owner-null check: they live in `Konto`, which is not part of this model.
- Konto's own constructor, lock and unlock: not part of this model. The model assumes a new account starts with balance 0 and unlocked, and stands in for lock and unlock with `SetGesperrt`, which only sets the flag.
- Java `long` account numbers and bank codes are unbounded integers here; they are only stored or passed along, so no overflow arises.
