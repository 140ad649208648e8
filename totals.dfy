/** The sums over sale lists that the context, the reports and the pages all compute with `reduce`. */
module Totals {
  import opened Records
  import opened Types

  function Galones(v: Venta): real { v.galones }
  function Precio(v: Venta): real { v.precioTotal }
  predicate EsPagada(v: Venta) { v.pagado }
  predicate EsPendiente(v: Venta) { !v.pagado }

  /** `vs.reduce((sum, v) => sum + v.galones, 0)`. */
  function SumGalones(vs: seq<Venta>): real { Sum(vs, Galones) }

  /** `vs.reduce((sum, v) => sum + v.precioTotal, 0)`. */
  function SumPrecio(vs: seq<Venta>): real { Sum(vs, Precio) }

  /** `vs.filter(v => v.pagado)`. */
  function Pagadas(vs: seq<Venta>): (r: seq<Venta>)
    ensures forall i :: 0 <= i < |r| ==> r[i].pagado
  {
    Filter(vs, EsPagada)
  }

  /** `vs.filter(v => !v.pagado)`. */
  function Pendientes(vs: seq<Venta>): (r: seq<Venta>)
    ensures forall i :: 0 <= i < |r| ==> !r[i].pagado
  {
    Filter(vs, EsPendiente)
  }

  /**
   * Every sale is paid or pending, never both: the two counts add up to the number of sales and
   * the two amounts add up to the amount billed.
   */
  lemma PaidAndPendingPartition(vs: seq<Venta>)
    ensures |Pagadas(vs)| + |Pendientes(vs)| == |vs|
    ensures SumPrecio(Pagadas(vs)) + SumPrecio(Pendientes(vs)) == SumPrecio(vs)
  {
    FilterPartition(vs, EsPagada, EsPendiente);
    SumPartition(vs, Precio, EsPagada, EsPendiente);
  }

  /** No pending sale means no pending amount; with positive prices the converse holds too. */
  lemma NoPendingNoDebt(vs: seq<Venta>)
    ensures |Pendientes(vs)| == 0 ==> SumPrecio(Pendientes(vs)) == 0.0
    ensures (forall i :: 0 <= i < |vs| ==> vs[i].precioTotal > 0.0) && |Pendientes(vs)| > 0 ==>
      SumPrecio(Pendientes(vs)) > 0.0
  {
    var p := Pendientes(vs);
    if (forall i :: 0 <= i < |vs| ==> vs[i].precioTotal > 0.0) && |p| > 0 {
      FilterMembers(vs, EsPendiente);
      forall i | 0 <= i < |p| ensures Precio(p[i]) > 0.0 {
        assert p[i] in vs;
      }
      SumPositive(p, Precio);
    }
  }

  /**
   * Appending one sale adds its gallons to the gallon sum and its price to the billed sum, and it
   * joins the paid list (and the paid amount) when it is paid, the pending ones otherwise.
   */
  lemma AppendSale(vs: seq<Venta>, v: Venta)
    ensures SumGalones(vs + [v]) == SumGalones(vs) + v.galones
    ensures SumPrecio(vs + [v]) == SumPrecio(vs) + v.precioTotal
    ensures Pagadas(vs + [v]) == Pagadas(vs) + (if v.pagado then [v] else [])
    ensures Pendientes(vs + [v]) == Pendientes(vs) + (if v.pagado then [] else [v])
    ensures SumPrecio(Pagadas(vs + [v])) == SumPrecio(Pagadas(vs)) + (if v.pagado then v.precioTotal else 0.0)
    ensures SumPrecio(Pendientes(vs + [v])) == SumPrecio(Pendientes(vs)) + (if v.pagado then 0.0 else v.precioTotal)
  {
    SumAppend(vs, [v], Galones);
    SumAppend(vs, [v], Precio);
    FilterAppend(vs, [v], EsPagada);
    FilterAppend(vs, [v], EsPendiente);
    SumAppend(Pagadas(vs), if v.pagado then [v] else [], Precio);
    SumAppend(Pendientes(vs), if v.pagado then [] else [v], Precio);
  }

  /** JavaScript's `Math.round`: the nearest integer, halves rounded up. */
  function RoundJs(x: real): (r: int)
    ensures r as real - 0.5 <= x < r as real + 0.5
  {
    (x + 0.5).Floor
  }

  /** `Math.round(total / n)` when `n > 0`, else 0: the rounded average shown on the pages. */
  function PromedioRedondeado(total: real, n: nat): (r: int)
    ensures n == 0 ==> r == 0
    ensures n > 0 ==> r as real - 0.5 <= total / n as real < r as real + 0.5
  {
    if n > 0 then RoundJs(total / n as real) else 0
  }
}
