/** The checking account (Girokonto) as a value, and each of its operations as a
    pure step from one account state to the next, together with the outcome the
    caller sees. The class Bank.Girokonto is proved against these functions. */
module KontoSpec {

  /** A Java reference that may be null. */
  datatype Option<T> = None | Some(value: T)

  /** The two exceptions the account operations throw. */
  datatype Error =
    | Gesperrt(kontonummer: int)   // GesperrtException, carrying the locked account's number
    | IllegalArgument              // IllegalArgumentException

  /** What a call returns: a value, or the exception it throws. */
  datatype Result<T> = Success(value: T) | Failure(error: Error)

  /** The fields of a Girokonto: balance, locked flag and account number
      (inherited from Konto) and the overdraft limit (dispo). */
  datatype Konto = Konto(kontostand: real, gesperrt: bool, kontonummer: int, dispo: real)

  /** The outcome of one operation and the account state after it. */
  datatype Step<T> = Step(result: Result<T>, konto: Konto)

  /** The limit is never negative: every way of building or changing an account keeps this. */
  predicate Valid(k: Konto) {
    k.dispo >= 0.0
  }

  /** The default account: number 99887766, overdraft limit 500. */
  function Standard(): (k: Konto)
    ensures Valid(k) && k.kontonummer == 99887766 && k.dispo == 500.0
    ensures k.kontostand == 0.0 && !k.gesperrt
  {
    Konto(0.0, false, 99887766, 500.0)
  }

  /** The three-argument constructor: a negative limit is refused, otherwise the
      new account carries the given number and limit. */
  function Eroeffnen(nummer: int, dispo: real): (r: Result<Konto>)
    ensures r.Failure? <==> dispo < 0.0
    ensures r.Failure? ==> r.error == IllegalArgument
    ensures r.Success? ==> Valid(r.value) && r.value.kontonummer == nummer && r.value.dispo == dispo
    ensures r.Success? ==> r.value.kontostand == 0.0 && !r.value.gesperrt
  {
    if dispo < 0.0 then Failure(IllegalArgument)
    else Success(Konto(0.0, false, nummer, dispo))
  }

  /** Whether the balance stays at or above -dispo after paying out betrag:
      the amount is at most what the account has available, its balance plus
      the overdraft limit. */
  function ReichtStand(k: Konto, betrag: real): (r: bool)
    ensures r <==> betrag <= k.kontostand + k.dispo
  {
    k.kontostand - betrag >= -k.dispo
  }

  /** setDispo: validation comes first; on success only the limit changes. */
  function SetDispo(k: Konto, dispo: real): (s: Step<()>)
    ensures s.result.Failure? <==> dispo < 0.0
    ensures s.result.Failure? ==> s.result.error == IllegalArgument && s.konto == k
    ensures s.result.Success? ==> s.konto == k.(dispo := dispo) && Valid(s.konto)
  {
    if dispo < 0.0 then Step(Failure(IllegalArgument), k)
    else Step(Success(()), k.(dispo := dispo))
  }

  /** ueberweisungAbsenden: the lock is checked first, then the arguments; with
      valid arguments the debit happens exactly when the balance suffices. Only
      a null recipient or purpose is refused, an empty one is accepted. */
  function UeberweisungAbsenden(k: Konto, betrag: real, empfaenger: Option<string>,
                                nachKontonr: int, nachBlz: int,
                                verwendungszweck: Option<string>): (s: Step<bool>)
    // a locked account refuses every amount, whatever the arguments or funds
    ensures k.gesperrt ==> s == Step(Failure(Gesperrt(k.kontonummer)), k)
    ensures !k.gesperrt && (betrag < 0.0 || empfaenger.None? || verwendungszweck.None?) ==>
              s == Step(Failure(IllegalArgument), k)
    // valid arguments on an unlocked account: the outcome is reichtStand's answer
    ensures !k.gesperrt && betrag >= 0.0 && empfaenger.Some? && verwendungszweck.Some? ==>
              s.result == Success(ReichtStand(k, betrag))
    // the state changes only by the exact debit, which never passes the limit
    ensures s.result == Success(true) ==>
              s.konto == k.(kontostand := k.kontostand - betrag) && s.konto.kontostand >= -k.dispo
    ensures s.result != Success(true) ==> s.konto == k
  {
    if k.gesperrt then Step(Failure(Gesperrt(k.kontonummer)), k)
    else if betrag < 0.0 || empfaenger.None? || verwendungszweck.None? then Step(Failure(IllegalArgument), k)
    else if k.kontostand - betrag >= -k.dispo then Step(Success(true), k.(kontostand := k.kontostand - betrag))
    else Step(Success(false), k)
  }

  /** ueberweisungEmpfangen: the lock is not consulted; only the arguments are
      validated, and then the amount is credited in full. */
  function UeberweisungEmpfangen(k: Konto, betrag: real, vonName: Option<string>,
                                 vonKontonr: int, vonBlz: int,
                                 verwendungszweck: Option<string>): (s: Step<()>)
    ensures s.result.Failure? <==> betrag < 0.0 || vonName.None? || verwendungszweck.None?
    ensures s.result.Failure? ==> s.result.error == IllegalArgument && s.konto == k
    ensures s.result.Success? ==> s.konto == k.(kontostand := k.kontostand + betrag)
    ensures s.konto.kontostand >= k.kontostand
  {
    if betrag < 0.0 || vonName.None? || verwendungszweck.None? then Step(Failure(IllegalArgument), k)
    else Step(Success(()), k.(kontostand := k.kontostand + betrag))
  }

  /** Locking and unlocking belong to Konto; here the flag is simply set. */
  function SetGesperrt(k: Konto, gesperrt: bool): (r: Konto)
    ensures r.gesperrt == gesperrt && r.(gesperrt := k.gesperrt) == k
  {
    k.(gesperrt := gesperrt)
  }
}
