/** The checking account as the mutable object the bank code works with. Each
    method is proved against the matching step function of KontoSpec: its
    outcome and the account's new state are exactly what that function gives. */
module Bank {
  import opened KontoSpec

  class Girokonto {
    // inherited from Konto
    var kontostand: real
    var gesperrt: bool
    const kontonummer: int
    // the overdraft limit
    var dispo: real

    /** The account's fields as a KontoSpec value. */
    function State(): Konto
      reads this
    {
      Konto(kontostand, gesperrt, kontonummer, dispo)
    }

    /** The object invariant: the limit is never negative. */
    ghost predicate Valid()
      reads this
    {
      KontoSpec.Valid(State())
    }

    /** The default account: a fixed number and a limit of 500. */
    constructor ()
      ensures Valid() && State() == Standard()
    {
      kontostand := 0.0;
      gesperrt := false;
      kontonummer := 99887766;
      dispo := 500.0;
    }

    /** An account with the given number and a limit already known to be valid;
        Create is the entry point that also handles a negative limit. */
    constructor WithDispo(nummer: int, dispo: real)
      requires dispo >= 0.0
      ensures Valid() && Eroeffnen(nummer, dispo) == Success(State())
    {
      kontostand := 0.0;
      gesperrt := false;
      kontonummer := nummer;
      this.dispo := dispo;
    }

    /** The three-argument constructor: throws IllegalArgumentException for a
        negative limit, otherwise yields a fresh account with that limit. */
    static method Create(nummer: int, dispo: real) returns (r: Result<Girokonto>)
      ensures r.Failure? <==> Eroeffnen(nummer, dispo).Failure?
      ensures r.Failure? ==> r.error == IllegalArgument
      ensures r.Success? ==> fresh(r.value) && r.value.Valid()
                             && Eroeffnen(nummer, dispo) == Success(r.value.State())
    {
      if dispo < 0.0 {
        r := Failure(IllegalArgument);
      } else {
        var g := new Girokonto.WithDispo(nummer, dispo);
        r := Success(g);
      }
    }

    /** getDispo: the limit, which on a valid account is never negative. */
    function GetDispo(): (d: real)
      reads this
      requires Valid()
      ensures d >= 0.0 && d == State().dispo
    {
      dispo
    }

    /** reichtStand: reads the state and changes nothing. */
    function ReichtStand(betrag: real): (r: bool)
      reads this
      ensures r == KontoSpec.ReichtStand(State(), betrag)
    {
      kontostand - betrag >= -dispo
    }

    /** setDispo: throws before changing anything for a negative limit. */
    method SetDispo(d: real) returns (r: Result<()>)
      requires Valid()
      modifies this
      ensures Valid()
      ensures r == KontoSpec.SetDispo(old(State()), d).result
      ensures State() == KontoSpec.SetDispo(old(State()), d).konto
    {
      if d < 0.0 {
        r := Failure(IllegalArgument);
        return;
      }
      dispo := d;
      r := Success(());
    }

    /** ueberweisungAbsenden: the lock, then the arguments, then the funds. */
    method UeberweisungAbsenden(betrag: real, empfaenger: Option<string>,
                                nachKontonr: int, nachBlz: int,
                                verwendungszweck: Option<string>) returns (r: Result<bool>)
      requires Valid()
      modifies this
      ensures Valid()
      ensures r == KontoSpec.UeberweisungAbsenden(old(State()), betrag, empfaenger,
                                                  nachKontonr, nachBlz, verwendungszweck).result
      ensures State() == KontoSpec.UeberweisungAbsenden(old(State()), betrag, empfaenger,
                                                        nachKontonr, nachBlz, verwendungszweck).konto
    {
      if gesperrt {
        r := Failure(Gesperrt(kontonummer));
        return;
      }
      if betrag < 0.0 || empfaenger.None? || verwendungszweck.None? {
        r := Failure(IllegalArgument);
        return;
      }
      if ReichtStand(betrag) {
        kontostand := kontostand - betrag;
        r := Success(true);
      } else {
        r := Success(false);
      }
    }

    /** ueberweisungEmpfangen: validates the arguments and credits the amount,
        on a locked account as well. */
    method UeberweisungEmpfangen(betrag: real, vonName: Option<string>,
                                 vonKontonr: int, vonBlz: int,
                                 verwendungszweck: Option<string>) returns (r: Result<()>)
      requires Valid()
      modifies this
      ensures Valid()
      ensures r == KontoSpec.UeberweisungEmpfangen(old(State()), betrag, vonName,
                                                   vonKontonr, vonBlz, verwendungszweck).result
      ensures State() == KontoSpec.UeberweisungEmpfangen(old(State()), betrag, vonName,
                                                         vonKontonr, vonBlz, verwendungszweck).konto
    {
      if betrag < 0.0 || vonName.None? || verwendungszweck.None? {
        r := Failure(IllegalArgument);
        return;
      }
      kontostand := kontostand + betrag;
      r := Success(());
    }

    /** Sets the locked flag, standing in for Konto's lock and unlock. */
    method SetGesperrt(b: bool)
      requires Valid()
      modifies this
      ensures Valid()
      ensures State() == KontoSpec.SetGesperrt(old(State()), b)
    {
      gesperrt := b;
    }
  }

  /** A short account history: a debit up to the full overdraft limit, a
      refused debit, a locked account that cannot pay but still receives, and
      a negative amount, reported as the lock while locked and as an invalid
      argument once unlocked. */
  method Example() {
    var g := new Girokonto();
    var ok := g.UeberweisungAbsenden(500.0, Some("Acme"), 123, 456, Some("invoice"));
    assert ok == Success(true) && g.kontostand == -500.0;
    ok := g.UeberweisungAbsenden(1.0, Some("Acme"), 123, 456, Some("invoice"));
    assert ok == Success(false) && g.kontostand == -500.0;
    g.SetGesperrt(true);
    ok := g.UeberweisungAbsenden(1.0, Some("Acme"), 123, 456, Some("x"));
    assert ok == Failure(Gesperrt(99887766));
    var done := g.UeberweisungEmpfangen(50.0, Some("Acme"), 123, 456, Some("x"));
    assert done.Success? && g.kontostand == -450.0;
    ok := g.UeberweisungAbsenden(-10.0, Some("Acme"), 123, 456, Some("x"));
    assert ok == Failure(Gesperrt(99887766)) && g.kontostand == -450.0;
    g.SetGesperrt(false);
    ok := g.UeberweisungAbsenden(-10.0, Some("Acme"), 123, 456, Some("x"));
    assert ok == Failure(IllegalArgument) && g.kontostand == -450.0;
  }
}
