/** Properties of the checking account over any sequence of operations, and
    the relations between single operations that the class's code relies on. */
module KontoTraces {
  import opened KontoSpec

  /** One call on the account, with its arguments. */
  datatype Op =
    | Absenden(betrag: real, empfaenger: Option<string>, nachKontonr: int, nachBlz: int,
               verwendungszweck: Option<string>)
    | Empfangen(betrag: real, vonName: Option<string>, vonKontonr: int, vonBlz: int,
                verwendungszweck: Option<string>)
    | DispoSetzen(dispo: real)
    | Sperre(gesperrt: bool)

  /** The account after one call (a failed call leaves it as it was). */
  function Apply(k: Konto, op: Op): Konto {
    match op
    case Absenden(b, e, kn, blz, z) => UeberweisungAbsenden(k, b, e, kn, blz, z).konto
    case Empfangen(b, n, kn, blz, z) => UeberweisungEmpfangen(k, b, n, kn, blz, z).konto
    case DispoSetzen(d) => SetDispo(k, d).konto
    case Sperre(g) => SetGesperrt(k, g)
  }

  /** The account after a sequence of calls, in order. */
  function Run(k: Konto, ops: seq<Op>): Konto
    decreases |ops|
  {
    if ops == [] then k else Run(Apply(k, ops[0]), ops[1..])
  }

  /** No call in ops unlocks the account. */
  predicate NeverUnlocks(ops: seq<Op>) {
    forall i :: 0 <= i < |ops| ==> ops[i] != Sperre(false)
  }

  /** No call in ops changes the overdraft limit or the lock. */
  predicate TransfersOnly(ops: seq<Op>) {
    forall i :: 0 <= i < |ops| ==> ops[i].Absenden? || ops[i].Empfangen?
  }

  /** The limit stays non-negative whatever the account is asked to do. */
  lemma {:induction false} RunKeepsValid(k: Konto, ops: seq<Op>)
    requires Valid(k)
    ensures Valid(Run(k, ops))
    decreases |ops|
  {
    if ops != [] {
      RunKeepsValid(Apply(k, ops[0]), ops[1..]);
    }
  }

  /** The account number never changes. */
  lemma {:induction false} RunKeepsKontonummer(k: Konto, ops: seq<Op>)
    ensures Run(k, ops).kontonummer == k.kontonummer
    decreases |ops|
  {
    if ops != [] {
      RunKeepsKontonummer(Apply(k, ops[0]), ops[1..]);
    }
  }

  /** While an account stays locked its balance can only grow: debits are
      refused, credits still arrive. */
  lemma {:induction false} LockedBalanceNeverFalls(k: Konto, ops: seq<Op>)
    requires k.gesperrt && NeverUnlocks(ops)
    ensures Run(k, ops).gesperrt
    ensures Run(k, ops).kontostand >= k.kontostand
    decreases |ops|
  {
    if ops != [] {
      assert ops[0] != Sperre(false);
      var k' := Apply(k, ops[0]);
      assert k'.gesperrt && k'.kontostand >= k.kontostand;
      assert NeverUnlocks(ops[1..]) by {
        forall i | 0 <= i < |ops[1..]| ensures ops[1..][i] != Sperre(false) {
          assert ops[1..][i] == ops[i + 1];
        }
      }
      LockedBalanceNeverFalls(k', ops[1..]);
    }
  }

  /** Transfers alone never take the balance below -dispo once it is at or
      above it: a debit is applied only when the new balance stays within the
      limit, and a credit never lowers the balance. */
  lemma {:induction false} TransfersKeepWithinDispo(k: Konto, ops: seq<Op>)
    requires k.kontostand >= -k.dispo && TransfersOnly(ops)
    ensures Run(k, ops).dispo == k.dispo
    ensures Run(k, ops).kontostand >= -k.dispo
    decreases |ops|
  {
    if ops != [] {
      var k' := Apply(k, ops[0]);
      assert k'.dispo == k.dispo && k'.kontostand >= -k.dispo;
      assert TransfersOnly(ops[1..]) by {
        forall i | 0 <= i < |ops[1..]| ensures ops[1..][i].Absenden? || ops[1..][i].Empfangen? {
          assert ops[1..][i] == ops[i + 1];
        }
      }
      TransfersKeepWithinDispo(k', ops[1..]);
    }
  }

  /** setDispo does not look at the balance: lowering the limit can leave an
      account already further overdrawn than the new limit allows. */
  lemma SetDispoIgnoresBalance()
    ensures exists k: Konto, d: real :: Valid(k) && k.kontostand >= -k.dispo
              && SetDispo(k, d).result.Success? && SetDispo(k, d).konto.kontostand < -d
  {
    var k := Konto(-400.0, false, 1, 500.0);
    assert SetDispo(k, 100.0).konto.kontostand < -100.0;
  }

  /** ueberweisungEmpfangen never consults the lock: locked or not, the same
      call has the same outcome and the same effect on the balance. */
  lemma EmpfangenIgnoresLock(k: Konto, betrag: real, vonName: Option<string>, vonKontonr: int,
                             vonBlz: int, verwendungszweck: Option<string>)
    ensures UeberweisungEmpfangen(SetGesperrt(k, true), betrag, vonName, vonKontonr, vonBlz, verwendungszweck).result
         == UeberweisungEmpfangen(SetGesperrt(k, false), betrag, vonName, vonKontonr, vonBlz, verwendungszweck).result
    ensures UeberweisungEmpfangen(SetGesperrt(k, true), betrag, vonName, vonKontonr, vonBlz, verwendungszweck).konto.kontostand
         == UeberweisungEmpfangen(SetGesperrt(k, false), betrag, vonName, vonKontonr, vonBlz, verwendungszweck).konto.kontostand
  {
  }

  /** A debit followed by a credit of the same amount restores the account. */
  lemma AbsendenThenEmpfangen(k: Konto, betrag: real, name: Option<string>, nr: int, blz: int,
                              zweck: Option<string>)
    requires UeberweisungAbsenden(k, betrag, name, nr, blz, zweck).result == Success(true)
    ensures UeberweisungEmpfangen(UeberweisungAbsenden(k, betrag, name, nr, blz, zweck).konto,
                                  betrag, name, nr, blz, zweck).konto == k
  {
  }
}
