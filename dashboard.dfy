/**
 * The dashboard of src/app/page.tsx: today's summary, the five latest sales of today (latest
 * first) and the rounded average of gallons per sale.
 */
module Dashboard {
  import opened Wrappers
  import opened Text
  import opened Records
  import opened Types
  import opened Totals
  import opened Storage
  import opened AppContext

  /** `ventasHoy.slice(-5).reverse()`: at most five of today's sales, the latest stored first. */
  function VentasRecientes(ventasHoy: seq<Venta>): (r: seq<Venta>)
    ensures |r| == if |ventasHoy| < 5 then |ventasHoy| else 5
    ensures forall i :: 0 <= i < |r| ==> r[i] == ventasHoy[|ventasHoy| - 1 - i]
    ensures r == [] <==> ventasHoy == []
  {
    Reverse(LastN(ventasHoy, 5))
  }

  /** The recent list holds only today's sales, and every one of the last five of them. */
  lemma RecientesAreLatest(ventasHoy: seq<Venta>, v: Venta)
    ensures v in VentasRecientes(ventasHoy) ==> v in ventasHoy
    ensures v in ventasHoy[|ventasHoy| - |VentasRecientes(ventasHoy)|..] ==> v in VentasRecientes(ventasHoy)
  {
    ReverseMembers(LastN(ventasHoy, 5));
  }

  /** The dashboard's list, over the stored sales of today. */
  function RecientesDelDia(ventasAlmacen: seq<Venta>, hoy: string): seq<Venta> {
    VentasRecientes(GetVentasDelDia(ventasAlmacen, None, hoy))
  }

  /** The empty-state message shows exactly when no stored sale is dated today. */
  lemma RecientesEmptyIffNoSales(ventasAlmacen: seq<Venta>, hoy: string)
    ensures RecientesDelDia(ventasAlmacen, hoy) == [] <==>
      forall i :: 0 <= i < |ventasAlmacen| ==> DatePart(ventasAlmacen[i].fecha) != hoy
  {
    FilterNonEmpty(ventasAlmacen, DelDia(hoy));
  }

  /** "Promedio Galones/Venta": the rounded mean over every sale in the mirror, or 0 with none. */
  function PromedioGalonesPorVenta(ventas: seq<Venta>): (r: int)
    ensures ventas == [] ==> r == 0
    ensures ventas != [] ==> r as real - 0.5 <= SumGalones(ventas) / |ventas| as real < r as real + 0.5
  {
    PromedioRedondeado(SumGalones(ventas), |ventas|)
  }

  /** The dashboard's summary card is the day summary of today. */
  function ResumenHoy(ventasAlmacen: seq<Venta>, hoy: string): ResumenDia {
    Resumen(GetVentasDelDia(ventasAlmacen, None, hoy))
  }
}
