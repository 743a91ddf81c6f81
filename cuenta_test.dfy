/** The test driver's scenarios, each as a client method that builds the
    objects, makes the same calls and returns what the test asserts on; the
    postconditions are those assertions, proved from the classes' contracts
    alone. `cuenta` of the test class is the account "Cristian" / 100.12345
    that every test starts from. */
module CuentaTest {
  import opened Dinero
  import opened Models

  datatype Option<T> = None | Some(value: T)

  const PersonaInicial: string := "Cristian"
  const SaldoInicial: real := 100.12345

  /** The account the test class builds before each test. */
  method CuentaInicial() returns (cuenta: Cuenta)
    ensures fresh(cuenta)
    ensures cuenta.persona == PersonaInicial && cuenta.saldo == SaldoInicial && cuenta.banco == null
  {
    cuenta := new Cuenta(PersonaInicial, SaldoInicial);
  }

  /** The first account of `cuentas` whose owner is `persona`, as
      `stream().filter(...).findFirst()` finds it; `anyMatch` is `Some?`. */
  method PrimeraConPersona(cuentas: seq<Cuenta>, persona: string) returns (r: Option<Cuenta>)
    ensures r.None? <==> forall k :: 0 <= k < |cuentas| ==> cuentas[k].persona != persona
    ensures r.Some? ==> r.value.persona == persona
    ensures r.Some? ==>
      exists i :: 0 <= i < |cuentas| && cuentas[i] == r.value && forall k :: 0 <= k < i ==> cuentas[k].persona != persona
  {
    var i := 0;
    while i < |cuentas|
      invariant 0 <= i <= |cuentas|
      invariant forall k :: 0 <= k < i ==> cuentas[k].persona != persona
    {
      if cuentas[i].persona == persona {
        return Some(cuentas[i]);
      }
      i := i + 1;
    }
    r := None;
  }

  /** testNombreCuenta, testSaldoCuenta and the unconditional assertions of
      testSaldoCuentaDev2: the constructor keeps owner and balance, and the
      balance is positive. */
  method NombreYSaldo() returns (persona: string, saldo: real)
    ensures persona == "Cristian" && saldo == 100.12345
    ensures !(saldo < 0.0) && saldo > 0.0
  {
    var cuenta := CuentaInicial();
    persona, saldo := cuenta.persona, cuenta.saldo;
  }

  /** testReferenciaCuenta: two accounts built separately from the same owner
      and balance are equal, although they are different objects. */
  method ReferenciaCuenta(persona: string, saldo: real) returns (iguales: bool, mismoObjeto: bool)
    ensures iguales && !mismoObjeto
  {
    var cuenta := new Cuenta(persona, saldo);
    var cuenta2 := new Cuenta(persona, saldo);
    iguales := cuenta2.Equals(cuenta);
    mismoObjeto := cuenta2 == cuenta;
  }

  /** testDebitoCuenta and testDebitoCuentaRepeated: 100.12345 - 90. */
  method DebitoCuenta() returns (r: Result<()>, saldo: real)
    ensures r.Ok?
    ensures saldo == 10.12345 && ParteEntera(saldo) == 10
  {
    var cuenta := CuentaInicial();
    r := cuenta.Debito(90.0);
    saldo := cuenta.saldo;
  }

  /** testCreditoCuenta: 100.12345 + 90. */
  method CreditoCuenta() returns (saldo: real)
    ensures saldo == 190.12345 && ParteEntera(saldo) == 190
  {
    var cuenta := CuentaInicial();
    cuenta.Credito(90.0);
    saldo := cuenta.saldo;
  }

  /** testTransferirDineroCuentas: 500000 from the account holding 900000 to
      the one holding 1000000, through a bank that lists neither. */
  method TransferirDineroCuentas() returns (r: Result<()>, saldo1: real, saldo2: real)
    ensures r.Ok?
    ensures saldo2 == 400000.0 && saldo1 == 1500000.0
  {
    var cuenta1 := new Cuenta("Jonh Doe", 1000000.0);
    var cuenta2 := new Cuenta("Cristian Doe", 900000.0);
    var banco := new Banco();
    banco.SetNombre("Bancolombia");
    r := banco.Transferir(cuenta2, cuenta1, 500000.0);
    saldo1, saldo2 := cuenta1.saldo, cuenta2.saldo;
  }

  /** testDineroInsuficienteException: debiting 1000 from 100.12345 throws
      with the message "Dinero Insuficiente"; the balance is left as it was. */
  method DineroInsuficienteLanzada() returns (r: Result<()>, saldo: real)
    ensures r.Err? && r.exception.message == "Dinero Insuficiente"
    ensures saldo == 100.12345
  {
    var cuenta := CuentaInicial();
    r := cuenta.Debito(1000.0);
    saldo := cuenta.saldo;
  }

  /** testRelacionBancoCuentas: two accounts registered, then the bank named,
      then a transfer; the bank lists both, in order, each refers back to it
      and reads its current name, and the search by owner finds the second.
      The bank is returned too: its back-reference invariant still holds. */
  method RelacionBancoCuentas()
    returns (saldo1: real, saldo2: real, cantidad: nat, nombre1: string, nombre2: string,
             encontrada: Option<string>, alguna: bool, banco: Banco)
    ensures saldo2 == 400000.0 && saldo1 == 1500000.0
    ensures cantidad == 2
    ensures nombre1 == "Bancolombia" && nombre2 == "Bancolombia"
    ensures encontrada == Some("Cristian Doe") && alguna
    ensures banco.Registradas()
  {
    var cuenta1 := new Cuenta("Jonh Doe", 1000000.0);
    var cuenta2 := new Cuenta("Cristian Doe", 900000.0);
    banco := new Banco();
    banco.AddCuenta(cuenta1);
    banco.AddCuenta(cuenta2);
    assert banco.cuentas == [cuenta1, cuenta2];
    assert cuenta1.banco == banco && cuenta2.banco == banco;
    banco.SetNombre("Bancolombia");
    var r := banco.Transferir(cuenta2, cuenta1, 500000.0);
    saldo1, saldo2 := cuenta1.saldo, cuenta2.saldo;
    cantidad := |banco.cuentas|;
    nombre1, nombre2 := cuenta1.banco.nombre, cuenta2.banco.nombre;
    assert banco.cuentas[1].persona == "Cristian Doe";
    var hallada := PrimeraConPersona(banco.cuentas, "Cristian Doe");
    encontrada := if hallada.Some? then Some(hallada.value.persona) else None;
    alguna := hallada.Some?;
  }

  /** testDebitoCuentaValueSource, testDebitoCuentaCsvSource,
      testDebitoCuentaCsvFileSource and testDebitoCuentaMethodSource, for the
      amounts below the initial balance: the balance stays positive. */
  method DebitoCuentaMonto(monto: real) returns (r: Result<()>, saldo: real)
    requires monto < SaldoInicial
    ensures r.Ok?
    ensures saldo == SaldoInicial - monto && saldo > 0.0
  {
    var cuenta := CuentaInicial();
    r := cuenta.Debito(monto);
    saldo := cuenta.saldo;
  }

  /** testDebitoCuentaCsvSource2 and testDebitoCuentaCsvFileSource2, for the
      rows whose amount is below the new balance: the balance is replaced, the
      debit leaves a positive rest and the owner is replaced. */
  method DebitoCuentaSaldoMonto(saldoNuevo: real, monto: real, persona: string)
    returns (r: Result<()>, saldo: real, personaFinal: string)
    requires monto < saldoNuevo
    ensures r.Ok?
    ensures saldo == saldoNuevo - monto && saldo > 0.0
    ensures personaFinal == persona
  {
    var cuenta := CuentaInicial();
    cuenta.SetSaldo(saldoNuevo);
    r := cuenta.Debito(monto);
    cuenta.SetPersona(persona);
    saldo, personaFinal := cuenta.saldo, cuenta.persona;
  }
}
