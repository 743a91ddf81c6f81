/** Value-level view of the ledger: exact decimal balances as `real`, the
    single error kind of the core, and the arithmetic that debit, credit and
    transfer perform on balances, with the properties the account and bank
    classes rely on. */
module Dinero {

  /** The message carried by every insufficient-funds failure. */
  const MensajeDineroInsuficiente: string := "Dinero Insuficiente"

  /** `DineroInsuficienteException`: the only error the core raises. */
  datatype DineroInsuficienteException = DineroInsuficienteException(message: string)

  /** The exception as `debito` raises it. */
  const DineroInsuficiente: DineroInsuficienteException :=
    DineroInsuficienteException(MensajeDineroInsuficiente)

  /** The outcome of a call or computation that may throw; a call that
      returns nothing succeeds with `Ok(())`. */
  datatype Result<T> = Ok(value: T) | Err(exception: DineroInsuficienteException)

  /** Balance after debiting `monto`: the new balance is computed first and
      the debit is refused when it would be negative. */
  function Debitar(saldo: real, monto: real): (r: Result<real>)
    ensures r.Ok? <==> monto <= saldo
    ensures r.Ok? ==> r.value + monto == saldo && 0.0 <= r.value
    ensures r.Err? ==> r.exception.message == "Dinero Insuficiente"
  {
    var nuevoSaldo := saldo - monto;
    if nuevoSaldo < 0.0 then Err(DineroInsuficiente) else Ok(nuevoSaldo)
  }

  /** Balance after crediting `monto`: always succeeds, no upper bound. */
  function Acreditar(saldo: real, monto: real): (r: real)
    ensures r - monto == saldo
    ensures 0.0 <= monto ==> saldo <= r
  {
    saldo + monto
  }

  /** Balances of source and destination after a transfer: the debit of the
      source, and only if it succeeds, the credit of the destination. */
  function Transferencia(origen: real, destino: real, monto: real): (r: Result<(real, real)>)
    ensures r.Ok? <==> monto <= origen
    ensures r.Ok? ==> r.value == (origen - monto, destino + monto)
    ensures r.Ok? ==> r.value.0 + r.value.1 == origen + destino
    ensures r.Err? ==> r.exception == DineroInsuficiente
  {
    match Debitar(origen, monto)
    case Err(e) => Err(e)
    case Ok(nuevoOrigen) => Ok((nuevoOrigen, Acreditar(destino, monto)))
  }

  /** A credit followed by a debit of the same amount restores any
      non-negative balance exactly. */
  lemma AcreditarLuegoDebitar(saldo: real, monto: real)
    requires 0.0 <= saldo
    ensures Debitar(Acreditar(saldo, monto), monto) == Ok(saldo)
  {
  }

  /** A successful debit followed by a credit of the same amount restores the
      balance exactly. */
  lemma DebitarLuegoAcreditar(saldo: real, monto: real)
    requires Debitar(saldo, monto).Ok?
    ensures Acreditar(Debitar(saldo, monto).value, monto) == saldo
  {
  }

  /** Sum of a sequence of balances. */
  function Total(saldos: seq<real>): (r: real)
  {
    if saldos == [] then 0.0 else saldos[0] + Total(saldos[1..])
  }

  /** Replacing one balance changes the total by exactly the difference. */
  lemma {:induction false} TotalActualizar(saldos: seq<real>, i: nat, v: real)
    requires i < |saldos|
    ensures Total(saldos[i := v]) == Total(saldos) - saldos[i] + v
  {
    if i == 0 {
      assert saldos[i := v][1..] == saldos[1..];
    } else {
      assert saldos[i := v][1..] == saldos[1..][i - 1 := v];
      TotalActualizar(saldos[1..], i - 1, v);
    }
  }

  /** A transfer between two different positions of a ledger conserves its
      total. */
  lemma {:induction false} TransferenciaConservaTotal(saldos: seq<real>, i: nat, j: nat, monto: real)
    requires i < |saldos| && j < |saldos| && i != j
    ensures Total(saldos[i := saldos[i] - monto][j := saldos[j] + monto]) == Total(saldos)
  {
    var debitado := saldos[i := saldos[i] - monto];
    TotalActualizar(saldos, i, saldos[i] - monto);
    assert debitado[j] == saldos[j];
    TotalActualizar(debitado, j, saldos[j] + monto);
  }

  /** A ledger in which only positions `i` and `j` changed, and their sum
      did not, has the same total as before. */
  lemma TransferenciaEnLibro(antes: seq<real>, despues: seq<real>, i: nat, j: nat)
    requires |antes| == |despues| && i < |antes| && j < |antes| && i != j
    requires despues[i] + despues[j] == antes[i] + antes[j]
    requires forall k :: 0 <= k < |antes| && k != i && k != j ==> despues[k] == antes[k]
    ensures Total(despues) == Total(antes)
  {
    var monto := antes[i] - despues[i];
    assert despues == antes[i := antes[i] - monto][j := antes[j] + monto];
    TransferenciaConservaTotal(antes, i, j, monto);
  }

  /** The integer part of `x`, truncated toward zero. */
  function Truncar(x: real): (r: int)
    ensures 0.0 <= x ==> r as real <= x < r as real + 1.0
    ensures x < 0.0 ==> r as real - 1.0 < x <= r as real
  {
    if 0.0 <= x then x.Floor else -((-x).Floor)
  }

  const DosA31: int := 0x8000_0000
  const DosA32: int := 0x1_0000_0000

  /** `BigDecimal.intValue`: the integer part, truncated toward zero, of
      which only the low 32 bits are kept, read as a two's-complement `int`. */
  function ParteEntera(x: real): (r: int)
    ensures -DosA31 <= r < DosA31
    ensures (r - Truncar(x)) % DosA32 == 0
    ensures -DosA31 <= Truncar(x) < DosA31 ==> r == Truncar(x)
  {
    (Truncar(x) + DosA31) % DosA32 - DosA31
  }
}
