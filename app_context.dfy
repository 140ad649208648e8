/**
 * The state coordinator of src/context/AppContext.tsx: in-memory mirrors of the three stored
 * collections and the current worker, mutators that write to the store first and touch the
 * mirror only when that write succeeds, and the queries it offers the pages.
 */
module AppContext {
  import opened Wrappers
  import opened Text
  import opened Records
  import opened Types
  import opened Totals
  import opened Storage

  /** A client matches when its lower-cased name or plate contains the lower-cased term. */
  predicate Coincide(c: Cliente, terminoLower: string) {
    Contains(Lower(c.nombre), terminoLower) || Contains(Lower(c.placa), terminoLower)
  }

  function CoincideCon(terminoLower: string): Cliente -> bool {
    (c: Cliente) => Coincide(c, terminoLower)
  }

  /** `buscarClientes(termino)`: all clients for a blank term, otherwise the matching ones in list order. */
  function BuscarClientes(clientes: seq<Cliente>, termino: string): (r: seq<Cliente>)
    ensures AllSpace(termino) ==> r == clientes
    ensures !AllSpace(termino) ==> forall i :: 0 <= i < |r| ==> Coincide(r[i], Lower(termino))
  {
    if Trim(termino) == [] then clientes else Filter(clientes, CoincideCon(Lower(termino)))
  }

  /** A non-blank search returns exactly the matching clients, in list order; the term itself is not trimmed. */
  lemma SearchExact(clientes: seq<Cliente>, termino: string)
    requires !AllSpace(termino)
    ensures SubseqOf(BuscarClientes(clientes, termino), clientes)
    ensures forall c :: c in BuscarClientes(clientes, termino) <==> c in clientes && Coincide(c, Lower(termino))
    ensures forall c ::
              multiset(BuscarClientes(clientes, termino))[c] == if Coincide(c, Lower(termino)) then multiset(clientes)[c] else 0
  {
    FilterSubseq(clientes, CoincideCon(Lower(termino)));
    FilterMembers(clientes, CoincideCon(Lower(termino)));
    FilterCount(clientes, CoincideCon(Lower(termino)));
  }

  /** Lower-casing does not turn a letter into white space, or white space into something else. */
  lemma LowerKeepsSpace(c: char)
    ensures IsSpace(LowerChar(c)) <==> IsSpace(c)
  {
  }

  /** Two terms that differ only in the case of their letters find the same clients. */
  lemma SearchIgnoresCase(clientes: seq<Cliente>, t1: string, t2: string)
    requires Lower(t1) == Lower(t2)
    ensures BuscarClientes(clientes, t1) == BuscarClientes(clientes, t2)
  {
    assert |t1| == |t2|;
    forall k | 0 <= k < |t1| ensures IsSpace(t1[k]) <==> IsSpace(t2[k]) {
      assert Lower(t1)[k] == LowerChar(t1[k]) && Lower(t2)[k] == LowerChar(t2[k]);
      LowerKeepsSpace(t1[k]);
      LowerKeepsSpace(t2[k]);
    }
  }

  /** `getResumenDia` over the day's sales. */
  function Resumen(ventasDelDia: seq<Venta>): (r: ResumenDia)
    ensures r.totalVentas == |ventasDelDia|
    ensures r.ventasPendientes + |Pagadas(ventasDelDia)| == r.totalVentas
    ensures r.totalIngresos + r.importePendiente == SumPrecio(ventasDelDia)
    ensures r.ventasPendientes == 0 ==> r.importePendiente == 0.0
  {
    PaidAndPendingPartition(ventasDelDia);
    NoPendingNoDebt(ventasDelDia);
    ResumenDia(
      |ventasDelDia|,
      SumGalones(ventasDelDia),
      SumPrecio(Pagadas(ventasDelDia)),
      |Pendientes(ventasDelDia)|,
      SumPrecio(Pendientes(ventasDelDia)))
  }

  /** The summary's income counts paid sales only: marking a paid sale unpaid moves its price to the pending side. */
  lemma IncomeIsPaidOnly(vs: seq<Venta>, v: Venta)
    requires v.pagado
    ensures Resumen(vs + [v]).totalIngresos == Resumen(vs).totalIngresos + v.precioTotal
    ensures Resumen(vs + [v.(pagado := false)]).totalIngresos == Resumen(vs).totalIngresos
    ensures Resumen(vs + [v.(pagado := false)]).importePendiente == Resumen(vs).importePendiente + v.precioTotal
  {
    FilterAppend(vs, [v], EsPagada);
    FilterAppend(vs, [v.(pagado := false)], EsPagada);
    FilterAppend(vs, [v.(pagado := false)], EsPendiente);
    SumAppend(Pagadas(vs), [v], Precio);
    SumAppend(Pendientes(vs), [v.(pagado := false)], Precio);
    assert Filter([v.(pagado := false)], EsPagada) == [];
    assert Filter([v], EsPagada) == [v];
    assert Filter([v.(pagado := false)], EsPendiente) == [v.(pagado := false)];
    assert Sum([v], Precio) == v.precioTotal;
    assert Sum([v.(pagado := false)], Precio) == v.precioTotal;
    assert Pagadas(vs + [v.(pagado := false)]) == Pagadas(vs);
  }

  /**
   * The day summary built sale by sale: all zero for no sales, and each further sale counts once,
   * adds its gallons, and adds its price to the income when it is paid, or to the pending amount
   * (and one to the pending count) when it is not.
   */
  lemma ResumenSnoc(vs: seq<Venta>, v: Venta)
    ensures Resumen([]) == ResumenDia(0, 0.0, 0.0, 0, 0.0)
    ensures var a, b := Resumen(vs), Resumen(vs + [v]);
      && b.totalVentas == a.totalVentas + 1
      && b.totalGalones == a.totalGalones + v.galones
      && b.totalIngresos == a.totalIngresos + (if v.pagado then v.precioTotal else 0.0)
      && b.ventasPendientes == a.ventasPendientes + (if v.pagado then 0 else 1)
      && b.importePendiente == a.importePendiente + (if v.pagado then 0.0 else v.precioTotal)
  {
    AppendSale(vs, v);
  }

  /**
   * `getClienteConGalones(id)`: the client with its lifetime gallons attached, or null for an
   * unknown id. The client is looked up in the mirror, the gallons are summed over the stored sales.
   */
  function ClienteConGalones(clientes: seq<Cliente>, ventasAlmacen: seq<Venta>, clienteId: string): (r: Option<Cliente>)
    ensures r.None? <==> !HasId(clientes, clienteId, ClienteId)
    ensures r.Some? ==> r.value.id == clienteId && r.value.totalGalones == Some(GalonesDe(ventasAlmacen, clienteId))
    ensures r.Some? ==>
      exists i :: 0 <= i < |clientes| && r.value == clientes[i].(totalGalones := r.value.totalGalones) &&
        forall j :: 0 <= j < i ==> clientes[j].id != clienteId
  {
    TotalGalonesIsSum(ventasAlmacen, clienteId);
    match Find(clientes, clienteId, ClienteId)
    case None => None
    case Some(c) =>
      var r := c.(totalGalones := Some(GetTotalGalonesPorCliente(ventasAlmacen, clienteId)));
      assert r.(totalGalones := r.totalGalones) == c.(totalGalones := r.totalGalones);
      Some(r)
  }

  /** The worker restored at start-up: the one whose id is stored, if the stored id is set and known. */
  function TrabajadorInicial(trabajadores: seq<Trabajador>, guardado: Option<string>, previo: Option<Trabajador>): (r: Option<Trabajador>)
    ensures guardado.None? || guardado.value == [] ==> r == previo
    ensures guardado.Some? && guardado.value != [] ==>
      (r.Some? <==> HasId(trabajadores, guardado.value, TrabajadorId)) &&
      (r.Some? ==> r.value in trabajadores && r.value.id == guardado.value) &&
      (r.Some? ==>
        exists i :: 0 <= i < |trabajadores| && trabajadores[i] == r.value &&
          forall j :: 0 <= j < i ==> trabajadores[j].id != guardado.value)
  {
    if guardado.Some? && guardado.value != [] then Find(trabajadores, guardado.value, TrabajadorId) else previo
  }

  /** The client `agregarCliente` builds: the page's fields plus the fresh id and registration time. */
  function NuevoCliente(datos: DatosCliente, id: string, fechaRegistro: string): (c: Cliente)
    ensures c.id == id && c.fechaRegistro == fechaRegistro && c.totalGalones.None? && c.tipoCliente.Some?
    ensures DatosCliente(c.nombre, c.placa, c.capacidadGalones, c.tipoCliente.value) == datos
  {
    Cliente(id, datos.nombre, datos.placa, datos.capacidadGalones, Some(datos.tipoCliente), fechaRegistro, None)
  }

  /** The sale `agregarVenta` builds: the page's fields plus the fresh id, the time and the current worker. */
  function NuevaVenta(datos: DatosVenta, id: string, fecha: string, trabajadorId: string): (v: Venta)
    ensures v.id == id && v.fecha == fecha && v.trabajadorId == trabajadorId
    ensures DatosVenta(v.clienteId, v.galones, v.precioTotal, v.pagado, v.notas) == datos
  {
    Venta(id, datos.clienteId, trabajadorId, fecha, datos.galones, datos.precioTotal, datos.pagado, datos.notas)
  }

  /** The worker `agregarTrabajador` builds. */
  function NuevoTrabajador(nombre: string, id: string, fechaRegistro: string): (t: Trabajador)
    ensures t.id == id && t.nombre == nombre && t.fechaRegistro == fechaRegistro
  {
    Trabajador(id, nombre, fechaRegistro)
  }

  /**
   * Updating an id the mirror does not hold makes the store and the mirror disagree: the store's save
   * appends the record, the mirror's map changes nothing.
   */
  lemma UpdateOfAbsentIdDiverges(s: seq<Cliente>, c: Cliente)
    requires !HasId(s, c.id, ClienteId)
    ensures ReplaceAll(s, c, ClienteId) == s
    ensures Upsert(s, c, ClienteId) == s + [c]
    ensures ReplaceAll(s, c, ClienteId) != Upsert(s, c, ClienteId)
  {
    assert |s + [c]| != |s|;
  }

  /** The provider: the mirrors the pages render, over the store they are loaded from. */
  class AppProvider {
    const store: Store
    var clientes: seq<Cliente>
    var ventas: seq<Venta>
    var trabajadores: seq<Trabajador>
    var trabajadorActual: Option<Trabajador>
    var loading: bool

    /** The mirrors equal the stored collections. */
    ghost predicate Synced()
      reads this, store
    {
      clientes == store.clientes && ventas == store.ventas && trabajadores == store.trabajadores
    }

    /** The first render: empty mirrors, no worker, still loading. */
    constructor (store: Store)
      ensures this.store == store
      ensures clientes == [] && ventas == [] && trabajadores == [] && trabajadorActual == None && loading
    {
      this.store := store;
      clientes, ventas, trabajadores := [], [], [];
      trabajadorActual := None;
      loading := true;
    }

    /** The start-up effect: copy the three collections and restore the stored current worker. */
    method CargarDatos()
      modifies this
      ensures Synced()
      ensures trabajadorActual == TrabajadorInicial(store.trabajadores, store.trabajadorActual, old(trabajadorActual))
      ensures !loading
    {
      clientes := store.clientes;
      ventas := store.ventas;
      trabajadores := store.trabajadores;
      var id := store.GetTrabajadorActual();
      if id.Some? && id.value != [] {
        trabajadorActual := Find(trabajadores, id.value, TrabajadorId);
      }
      loading := false;
    }

    /** `refreshData`, also run on every change notification: reload the three collections, nothing else. */
    method RefreshData()
      modifies this`clientes, this`ventas, this`trabajadores
      ensures Synced()
    {
      clientes := store.clientes;
      ventas := store.ventas;
      trabajadores := store.trabajadores;
    }

    /** `agregarCliente`: save the new client; on success append it to the mirror. */
    method AgregarCliente(datos: DatosCliente, id: string, fechaRegistro: string) returns (ok: bool)
      modifies this`clientes, store`clientes
      ensures ok == store.escribible
      ensures store.clientes == if ok then Upsert(old(store.clientes), NuevoCliente(datos, id, fechaRegistro), ClienteId) else old(store.clientes)
      ensures clientes == if ok then old(clientes) + [NuevoCliente(datos, id, fechaRegistro)] else old(clientes)
      ensures old(Synced()) && !HasId(old(store.clientes), id, ClienteId) ==> Synced()
    {
      var nuevo := NuevoCliente(datos, id, fechaRegistro);
      ok := store.SaveCliente(nuevo);
      if ok {
        clientes := clientes + [nuevo];
        if old(Synced()) && !HasId(old(store.clientes), id, ClienteId) {
          AppendIsUpsert(old(store.clientes), nuevo, ClienteId);
        }
      }
    }

    /** `actualizarCliente`: save the client; on success replace the same-id entries of the mirror. */
    method ActualizarCliente(cliente: Cliente) returns (ok: bool)
      modifies this`clientes, store`clientes
      ensures ok == store.escribible
      ensures store.clientes == if ok then Upsert(old(store.clientes), cliente, ClienteId) else old(store.clientes)
      ensures clientes == if ok then ReplaceAll(old(clientes), cliente, ClienteId) else old(clientes)
      ensures old(Synced()) && old(UniqueIds(store.clientes, ClienteId)) && old(HasId(store.clientes, cliente.id, ClienteId)) ==>
        Synced() && UniqueIds(store.clientes, ClienteId)
    {
      ok := store.SaveCliente(cliente);
      if ok {
        clientes := ReplaceAll(clientes, cliente, ClienteId);
        if old(Synced()) && old(UniqueIds(store.clientes, ClienteId)) && old(HasId(store.clientes, cliente.id, ClienteId)) {
          ReplaceAllIsUpsert(old(store.clientes), cliente, ClienteId);
          UpsertKeepsUnique(old(store.clientes), cliente, ClienteId);
        }
      }
    }

    /** `eliminarCliente`: delete from the store; on success filter the id out of the mirror. Sales are kept. */
    method EliminarCliente(clienteId: string) returns (ok: bool)
      modifies this`clientes, store`clientes
      ensures ok == store.escribible
      ensures store.clientes == if ok then RemoveId(old(store.clientes), clienteId, ClienteId) else old(store.clientes)
      ensures clientes == if ok then RemoveId(old(clientes), clienteId, ClienteId) else old(clientes)
      ensures old(Synced()) ==> Synced()
    {
      ok := store.DeleteCliente(clienteId);
      if ok {
        clientes := RemoveId(clientes, clienteId, ClienteId);
      }
    }

    /**
     * `agregarVenta`: refuse without a current worker; otherwise save a sale stamped with the current
     * worker's id and, on success, append it to the mirror.
     */
    method AgregarVenta(datos: DatosVenta, id: string, fecha: string) returns (ok: bool)
      modifies this`ventas, store`ventas
      ensures trabajadorActual.None? ==> !ok && ventas == old(ventas) && store.ventas == old(store.ventas)
      ensures trabajadorActual.Some? ==>
        var nueva := NuevaVenta(datos, id, fecha, trabajadorActual.value.id);
        && ok == store.escribible
        && store.ventas == (if ok then Upsert(old(store.ventas), nueva, VentaId) else old(store.ventas))
        && ventas == (if ok then old(ventas) + [nueva] else old(ventas))
      ensures old(Synced()) && !HasId(old(store.ventas), id, VentaId) ==> Synced()
    {
      if trabajadorActual.None? {
        return false;
      }
      var nueva := NuevaVenta(datos, id, fecha, trabajadorActual.value.id);
      ok := store.SaveVenta(nueva);
      if ok {
        ventas := ventas + [nueva];
        if old(Synced()) && !HasId(old(store.ventas), id, VentaId) {
          AppendIsUpsert(old(store.ventas), nueva, VentaId);
        }
      }
    }

    /** `actualizarVenta`: save the sale; on success replace the same-id entries of the mirror. */
    method ActualizarVenta(venta: Venta) returns (ok: bool)
      modifies this`ventas, store`ventas
      ensures ok == store.escribible
      ensures store.ventas == if ok then Upsert(old(store.ventas), venta, VentaId) else old(store.ventas)
      ensures ventas == if ok then ReplaceAll(old(ventas), venta, VentaId) else old(ventas)
      ensures old(Synced()) && old(UniqueIds(store.ventas, VentaId)) && old(HasId(store.ventas, venta.id, VentaId)) ==>
        Synced() && UniqueIds(store.ventas, VentaId)
    {
      ok := store.SaveVenta(venta);
      if ok {
        ventas := ReplaceAll(ventas, venta, VentaId);
        if old(Synced()) && old(UniqueIds(store.ventas, VentaId)) && old(HasId(store.ventas, venta.id, VentaId)) {
          ReplaceAllIsUpsert(old(store.ventas), venta, VentaId);
          UpsertKeepsUnique(old(store.ventas), venta, VentaId);
        }
      }
    }

    /** `eliminarVenta`: delete from the store; on success filter the id out of the mirror. */
    method EliminarVenta(ventaId: string) returns (ok: bool)
      modifies this`ventas, store`ventas
      ensures ok == store.escribible
      ensures store.ventas == if ok then RemoveId(old(store.ventas), ventaId, VentaId) else old(store.ventas)
      ensures ventas == if ok then RemoveId(old(ventas), ventaId, VentaId) else old(ventas)
      ensures old(Synced()) ==> Synced()
    {
      ok := store.DeleteVenta(ventaId);
      if ok {
        ventas := RemoveId(ventas, ventaId, VentaId);
      }
    }

    /** `agregarTrabajador`: save the new worker; on success append it to the mirror. */
    method AgregarTrabajador(nombre: string, id: string, fechaRegistro: string) returns (ok: bool)
      modifies this`trabajadores, store`trabajadores
      ensures ok == store.escribible
      ensures store.trabajadores == if ok then Upsert(old(store.trabajadores), NuevoTrabajador(nombre, id, fechaRegistro), TrabajadorId) else old(store.trabajadores)
      ensures trabajadores == if ok then old(trabajadores) + [NuevoTrabajador(nombre, id, fechaRegistro)] else old(trabajadores)
      ensures old(Synced()) && !HasId(old(store.trabajadores), id, TrabajadorId) ==> Synced()
    {
      var nuevo := NuevoTrabajador(nombre, id, fechaRegistro);
      ok := store.SaveTrabajador(nuevo);
      if ok {
        trabajadores := trabajadores + [nuevo];
        if old(Synced()) && !HasId(old(store.trabajadores), id, TrabajadorId) {
          AppendIsUpsert(old(store.trabajadores), nuevo, TrabajadorId);
        }
      }
    }

    /**
     * `seleccionarTrabajador`: an id missing from the mirror is refused and nothing changes; otherwise
     * the id is stored and, on success, that worker becomes current.
     */
    method SeleccionarTrabajador(trabajadorId: string) returns (ok: bool)
      modifies this`trabajadorActual, store`trabajadorActual
      ensures !HasId(trabajadores, trabajadorId, TrabajadorId) ==>
        !ok && trabajadorActual == old(trabajadorActual) && store.trabajadorActual == old(store.trabajadorActual)
      ensures HasId(trabajadores, trabajadorId, TrabajadorId) ==>
        && ok == store.escribible
        && trabajadorActual == (if ok then Find(trabajadores, trabajadorId, TrabajadorId) else old(trabajadorActual))
        && store.trabajadorActual == (if ok then Some(trabajadorId) else old(store.trabajadorActual))
      ensures ok ==> trabajadorActual.Some? && trabajadorActual.value.id == trabajadorId && trabajadorActual.value in trabajadores
    {
      var trabajador := Find(trabajadores, trabajadorId, TrabajadorId);
      if trabajador.None? {
        return false;
      }
      ok := store.SetTrabajadorActual(trabajadorId);
      if ok {
        trabajadorActual := trabajador;
      }
    }

    /** `getVentasDelDia(fecha)`, reading the stored sales, not the mirror. */
    function GetVentasDelDia(fecha: Option<string>, hoy: string): seq<Venta>
      reads store
    {
      Storage.GetVentasDelDia(store.ventas, fecha, hoy)
    }

    /** `getResumenDia(fecha)`: the summary of the stored sales of that day. */
    function GetResumenDia(fecha: Option<string>, hoy: string): ResumenDia
      reads store
    {
      Resumen(GetVentasDelDia(fecha, hoy))
    }

    /** `getClienteConGalones(id)`: the mirror's client, with gallons summed over the stored sales. */
    function GetClienteConGalones(clienteId: string): Option<Cliente>
      reads this, store
    {
      ClienteConGalones(clientes, store.ventas, clienteId)
    }
  }
}
