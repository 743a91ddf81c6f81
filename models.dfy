/** The ledger's two classes: `Cuenta`, an account whose balance is updated
    in place, and `Banco`, a named registry that appends accounts, sets their
    back-reference and moves money between two accounts. */
module Models {
  import opened Dinero

  /** The balances of a sequence of accounts, position by position. */
  function Saldos(cuentas: seq<Cuenta>): (r: seq<real>)
    reads cuentas
    ensures |r| == |cuentas|
    ensures forall i :: 0 <= i < |cuentas| ==> r[i] == cuentas[i].saldo
  {
    if cuentas == [] then [] else [cuentas[0].saldo] + Saldos(cuentas[1..])
  }

  /** No account object is listed twice. */
  predicate Distintas(cuentas: seq<Cuenta>)
  {
    forall i, j :: 0 <= i < j < |cuentas| ==> cuentas[i] != cuentas[j]
  }

  class Cuenta {
    var persona: string
    var saldo: real
    var banco: Banco?

    /** Stores owner and balance as given; no check on the balance's sign. */
    constructor (persona: string, saldo: real)
      ensures this.persona == persona && this.saldo == saldo && banco == null
    {
      this.persona := persona;
      this.saldo := saldo;
      banco := null;
    }

    /** Subtracts `monto`, or throws when the new balance would be negative;
        a refused debit leaves the balance as it was. */
    method Debito(monto: real) returns (r: Result<()>)
      modifies this`saldo
      ensures r.Err? <==> old(saldo) < monto
      ensures r.Err? ==> r.exception == DineroInsuficiente && saldo == old(saldo)
      ensures r.Ok? ==> saldo == old(saldo) - monto && 0.0 <= saldo
      ensures Debitar(old(saldo), monto) == if r.Ok? then Ok(saldo) else Err(r.exception)
    {
      var nuevoSaldo := saldo - monto;
      if nuevoSaldo < 0.0 {
        return Err(DineroInsuficiente);
      }
      saldo := nuevoSaldo;
      r := Ok(());
    }

    /** Adds `monto` unconditionally. */
    method Credito(monto: real)
      modifies this`saldo
      ensures saldo == Acreditar(old(saldo), monto)
    {
      saldo := saldo + monto;
    }

    method SetSaldo(saldo: real)
      modifies this`saldo
      ensures this.saldo == saldo
    {
      this.saldo := saldo;
    }

    method SetPersona(persona: string)
      modifies this`persona
      ensures this.persona == persona
    {
      this.persona := persona;
    }

    /** `equals`: two accounts are equal when owner and balance are, whatever
        their identity and their bank. */
    predicate Equals(otra: Cuenta)
      reads this, otra
      ensures this == otra ==> Equals(otra)
    {
      persona == otra.persona && saldo == otra.saldo
    }
  }

  /** `equals` is an equivalence relation on accounts. */
  lemma EqualsEsEquivalencia(a: Cuenta, b: Cuenta, c: Cuenta)
    ensures a.Equals(a)
    ensures a.Equals(b) ==> b.Equals(a)
    ensures a.Equals(b) && b.Equals(c) ==> a.Equals(c)
  {
  }

  class Banco {
    var nombre: string
    var cuentas: seq<Cuenta>

    /** An empty bank: no accounts, empty name. */
    constructor ()
      ensures nombre == "" && cuentas == [] && Registradas()
    {
      nombre := "";
      cuentas := [];
    }

    /** Every listed account refers back to this bank. */
    ghost predicate Registradas()
      reads this, cuentas
      ensures Registradas() ==> forall c :: c in cuentas ==> c.banco == this
    {
      forall i :: 0 <= i < |cuentas| ==> cuentas[i].banco == this
    }

    method SetNombre(nombre: string)
      modifies this`nombre
      ensures this.nombre == nombre
      ensures old(Registradas()) ==> Registradas()
    {
      this.nombre := nombre;
    }

    /** Appends `cuenta` (duplicates allowed) and points its bank reference
        here; earlier entries are kept in order. */
    method AddCuenta(cuenta: Cuenta)
      modifies this`cuentas, cuenta`banco
      ensures cuentas == old(cuentas) + [cuenta]
      ensures cuenta.banco == this
      ensures old(Registradas()) ==> Registradas()
    {
      cuentas := cuentas + [cuenta];
      cuenta.banco := this;
    }

    /** Debits `origen`, and only if that succeeds credits `destino`; the
        exception of a refused debit is passed on. The sum of the two
        balances never changes and no other account is touched, so the total
        of a ledger of distinct accounts that lists both does not change
        either (`TransferirConservaTotal`, `TransferirEnBanco`). */
    method Transferir(origen: Cuenta, destino: Cuenta, monto: real) returns (r: Result<()>)
      modifies origen`saldo, destino`saldo
      ensures r.Err? <==> old(origen.saldo) < monto
      ensures r.Err? ==>
        r.exception == DineroInsuficiente && origen.saldo == old(origen.saldo) && destino.saldo == old(destino.saldo)
      ensures r.Ok? && origen != destino ==>
        origen.saldo == old(origen.saldo) - monto && destino.saldo == old(destino.saldo) + monto
      ensures origen == destino ==> origen.saldo == old(origen.saldo)
      ensures origen.saldo + destino.saldo == old(origen.saldo + destino.saldo)
      ensures origen != destino ==>
        Transferencia(old(origen.saldo), old(destino.saldo), monto)
        == if r.Ok? then Ok((origen.saldo, destino.saldo)) else Err(r.exception)
    {
      r := origen.Debito(monto);
      if r.Ok? {
        destino.Credito(monto);
      }
    }
  }

  /** In a list of distinct accounts, the account at any position other
      than `i` and `j` is neither of the accounts at `i` and `j`. */
  lemma OtrasPosiciones(cuentas: seq<Cuenta>, i: nat, j: nat)
    requires Distintas(cuentas) && i < |cuentas| && j < |cuentas|
    ensures forall k :: 0 <= k < |cuentas| && k != i && k != j ==> cuentas[k] != cuentas[i] && cuentas[k] != cuentas[j]
  {
  }

  /** A step that keeps the sum of `origen` and `destino` and changes no
      other balance, as `Transferir` does, keeps the total of a ledger of
      distinct accounts that lists both. */
  twostate lemma {:induction false} TransferirConservaTotal(cuentas: seq<Cuenta>, origen: Cuenta, destino: Cuenta)
    requires Distintas(cuentas) && origen in cuentas && destino in cuentas
    requires forall k :: 0 <= k < |cuentas| && cuentas[k] != origen && cuentas[k] != destino ==>
      cuentas[k].saldo == old(cuentas[k].saldo)
    requires origen.saldo + destino.saldo == old(origen.saldo + destino.saldo)
    ensures Total(Saldos(cuentas)) == old(Total(Saldos(cuentas)))
  {
    var antes, despues := old(Saldos(cuentas)), Saldos(cuentas);
    var i :| 0 <= i < |cuentas| && cuentas[i] == origen;
    var j :| 0 <= j < |cuentas| && cuentas[j] == destino;
    OtrasPosiciones(cuentas, i, j);
    if i == j {
      assert despues == antes;
    } else {
      TransferenciaEnLibro(antes, despues, i, j);
    }
  }

  /** A transfer between two accounts that a bank lists, in a bank that lists
      each account once, keeps the total of the bank's balances. */
  method TransferirEnBanco(banco: Banco, origen: Cuenta, destino: Cuenta, monto: real) returns (r: Result<()>)
    requires Distintas(banco.cuentas) && origen in banco.cuentas && destino in banco.cuentas
    modifies origen`saldo, destino`saldo
    ensures r.Err? <==> old(origen.saldo) < monto
    ensures Total(Saldos(banco.cuentas)) == old(Total(Saldos(banco.cuentas)))
  {
    ghost var cuentas := banco.cuentas;
    ghost var antes := Saldos(cuentas);
    ghost var i :| 0 <= i < |cuentas| && cuentas[i] == origen;
    ghost var j :| 0 <= j < |cuentas| && cuentas[j] == destino;
    OtrasPosiciones(cuentas, i, j);
    r := banco.Transferir(origen, destino, monto);
    ghost var despues := Saldos(cuentas);
    if i == j {
      assert despues == antes;
    } else {
      TransferenciaEnLibro(antes, despues, i, j);
    }
  }
}
