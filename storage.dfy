/**
 * The record store of src/lib/storage.ts: three collections and the current worker's id, held
 * where the browser's local storage keeps them, plus the queries that read the stored sales.
 */
module Storage {
  import opened Wrappers
  import opened Text
  import opened Records
  import opened Types
  import opened Totals

  /**
   * The persisted state. `escribible` says whether local storage accepts a write; when it does
   * not (the quota is exceeded, say) every write reports false and stores nothing.
   */
  class Store {
    var clientes: seq<Cliente>
    var ventas: seq<Venta>
    var trabajadores: seq<Trabajador>
    var trabajadorActual: Option<string>
    var escribible: bool

    /** A store holding nothing yet. */
    constructor (escribible: bool)
      ensures clientes == [] && ventas == [] && trabajadores == [] && trabajadorActual == None
      ensures this.escribible == escribible
    {
      clientes, ventas, trabajadores := [], [], [];
      trabajadorActual := None;
      this.escribible := escribible;
    }

    /** `saveCliente`: load the list, overwrite the slot with the same id or push, write it back. */
    method SaveCliente(cliente: Cliente) returns (ok: bool)
      modifies this`clientes
      ensures ok == escribible
      ensures clientes == if ok then Upsert(old(clientes), cliente, ClienteId) else old(clientes)
    {
      var lista := clientes;
      var index := FirstIndex(lista, cliente.id, ClienteId);
      if index >= 0 {
        lista := lista[index := cliente];
      } else {
        lista := lista + [cliente];
      }
      if escribible {
        clientes := lista;
        ok := true;
      } else {
        ok := false;
      }
    }

    /** `deleteCliente`: write back the list without that id; true even when the id was absent. */
    method DeleteCliente(clienteId: string) returns (ok: bool)
      modifies this`clientes
      ensures ok == escribible
      ensures clientes == if ok then RemoveId(old(clientes), clienteId, ClienteId) else old(clientes)
    {
      var filtrados := RemoveId(clientes, clienteId, ClienteId);
      if escribible {
        clientes := filtrados;
        ok := true;
      } else {
        ok := false;
      }
    }

    /** `saveVenta`: as `saveCliente`, for sales. */
    method SaveVenta(venta: Venta) returns (ok: bool)
      modifies this`ventas
      ensures ok == escribible
      ensures ventas == if ok then Upsert(old(ventas), venta, VentaId) else old(ventas)
    {
      var lista := ventas;
      var index := FirstIndex(lista, venta.id, VentaId);
      if index >= 0 {
        lista := lista[index := venta];
      } else {
        lista := lista + [venta];
      }
      if escribible {
        ventas := lista;
        ok := true;
      } else {
        ok := false;
      }
    }

    /** `deleteVenta`: as `deleteCliente`, for sales. */
    method DeleteVenta(ventaId: string) returns (ok: bool)
      modifies this`ventas
      ensures ok == escribible
      ensures ventas == if ok then RemoveId(old(ventas), ventaId, VentaId) else old(ventas)
    {
      var filtradas := RemoveId(ventas, ventaId, VentaId);
      if escribible {
        ventas := filtradas;
        ok := true;
      } else {
        ok := false;
      }
    }

    /** `saveTrabajador`: as `saveCliente`, for workers. */
    method SaveTrabajador(trabajador: Trabajador) returns (ok: bool)
      modifies this`trabajadores
      ensures ok == escribible
      ensures trabajadores == if ok then Upsert(old(trabajadores), trabajador, TrabajadorId) else old(trabajadores)
    {
      var lista := trabajadores;
      var index := FirstIndex(lista, trabajador.id, TrabajadorId);
      if index >= 0 {
        lista := lista[index := trabajador];
      } else {
        lista := lista + [trabajador];
      }
      if escribible {
        trabajadores := lista;
        ok := true;
      } else {
        ok := false;
      }
    }

    /** `getTrabajadorActual`: the stored id, or null when none was ever stored. */
    function GetTrabajadorActual(): Option<string>
      reads this
    {
      trabajadorActual
    }

    /** `setTrabajadorActual`: store the id; reading it back afterwards gives the same id. */
    method SetTrabajadorActual(trabajadorId: string) returns (ok: bool)
      modifies this`trabajadorActual
      ensures ok == escribible
      ensures ok ==> GetTrabajadorActual() == Some(trabajadorId)
      ensures !ok ==> trabajadorActual == old(trabajadorActual)
    {
      if escribible {
        trabajadorActual := Some(trabajadorId);
        ok := true;
      } else {
        ok := false;
      }
    }
  }

  /** The test `v => v.clienteId === clienteId`. */
  function DelCliente(clienteId: string): Venta -> bool {
    (v: Venta) => v.clienteId == clienteId
  }

  /** The test `v => fechaDe(v) === dia`, on the day part of the ISO timestamp. */
  function DelDia(dia: string): Venta -> bool {
    (v: Venta) => DatePart(v.fecha) == dia
  }

  /** `getVentasPorCliente`: the client's sales, in store order. */
  function GetVentasPorCliente(ventas: seq<Venta>, clienteId: string): (r: seq<Venta>)
    ensures forall i :: 0 <= i < |r| ==> r[i].clienteId == clienteId
    ensures forall v :: v in r <==> v in ventas && v.clienteId == clienteId
  {
    FilterMembers(ventas, DelCliente(clienteId));
    Filter(ventas, DelCliente(clienteId))
  }

  /** `getTotalGalonesPorCliente`: the client's lifetime gallons, paid or not, any date. */
  function GetTotalGalonesPorCliente(ventas: seq<Venta>, clienteId: string): (r: real)
    ensures r == GalonesDe(ventas, clienteId)
    ensures (forall i :: 0 <= i < |ventas| ==> ventas[i].clienteId != clienteId) ==> r == 0.0
  {
    TotalGalonesIsSum(ventas, clienteId);
    SumGalones(GetVentasPorCliente(ventas, clienteId))
  }

  /** The same total stated directly: each sale adds its gallons when it belongs to the client, 0 otherwise. */
  function GalonesDe(ventas: seq<Venta>, clienteId: string): real {
    if ventas == [] then 0.0
    else (if ventas[0].clienteId == clienteId then ventas[0].galones else 0.0) + GalonesDe(ventas[1..], clienteId)
  }

  /** The per-client total is the sum of `galones` over exactly that client's sales, and 0 when it has none. */
  lemma {:induction false} TotalGalonesIsSum(ventas: seq<Venta>, clienteId: string)
    ensures SumGalones(GetVentasPorCliente(ventas, clienteId)) == GalonesDe(ventas, clienteId)
    ensures (forall i :: 0 <= i < |ventas| ==> ventas[i].clienteId != clienteId) ==>
      GalonesDe(ventas, clienteId) == 0.0
  {
    if ventas != [] {
      TotalGalonesIsSum(ventas[1..], clienteId);
      var head := if ventas[0].clienteId == clienteId then [ventas[0]] else [];
      assert GetVentasPorCliente(ventas, clienteId) == head + GetVentasPorCliente(ventas[1..], clienteId);
      SumAppend(head, GetVentasPorCliente(ventas[1..], clienteId), Galones);
    }
  }

  /** A new sale adds its gallons to its own client's total and nothing to any other client's. */
  lemma TotalGalonesAfterSale(ventas: seq<Venta>, v: Venta, clienteId: string)
    ensures GetTotalGalonesPorCliente(ventas + [v], clienteId) ==
      GetTotalGalonesPorCliente(ventas, clienteId) + (if v.clienteId == clienteId then v.galones else 0.0)
  {
    FilterAppend(ventas, [v], DelCliente(clienteId));
    SumAppend(GetVentasPorCliente(ventas, clienteId), GetVentasPorCliente([v], clienteId), Galones);
  }

  /** The day `getVentasDelDia(fecha)` looks for: the given day, or today when it is missing or empty. */
  function DiaBuscado(fecha: Option<string>, hoy: string): (d: string)
    ensures fecha.Some? && fecha.value != [] ==> d == fecha.value
    ensures fecha.None? || fecha.value == [] ==> d == hoy
  {
    if fecha.Some? && fecha.value != [] then fecha.value else hoy
  }

  /** `getVentasDelDia(fecha)`: the stored sales whose ISO timestamp's day part is the day looked for. */
  function GetVentasDelDia(ventas: seq<Venta>, fecha: Option<string>, hoy: string): (r: seq<Venta>)
    ensures forall i :: 0 <= i < |r| ==> DatePart(r[i].fecha) == DiaBuscado(fecha, hoy)
  {
    var dia := DiaBuscado(fecha, hoy);
    Filter(ventas, DelDia(dia))
  }

  /** The day's sales are exactly the stored sales of that day, in store order, each kept as often as stored. */
  lemma DaySalesExact(ventas: seq<Venta>, fecha: Option<string>, hoy: string)
    ensures SubseqOf(GetVentasDelDia(ventas, fecha, hoy), ventas)
    ensures forall v :: v in GetVentasDelDia(ventas, fecha, hoy) <==> v in ventas && DatePart(v.fecha) == DiaBuscado(fecha, hoy)
    ensures forall v ::
      multiset(GetVentasDelDia(ventas, fecha, hoy))[v] == if DatePart(v.fecha) == DiaBuscado(fecha, hoy) then multiset(ventas)[v] else 0
  {
    var dia := DiaBuscado(fecha, hoy);
    FilterSubseq(ventas, DelDia(dia));
    FilterMembers(ventas, DelDia(dia));
    FilterCount(ventas, DelDia(dia));
  }
}
