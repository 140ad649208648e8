/**
 * The report rollups of src/app/reportes/page.tsx: overall totals, the date/worker filter, the
 * per-client and per-worker rollups, the seven-day series and the exported CSV text.
 */
module Reportes {
  import opened Wrappers
  import opened Text
  import opened Records
  import opened Types
  import opened Totals
  import opened Storage
  import opened AppContext

  /** `den > 0 ? num / den : 0`, the guard every average of the page uses. */
  function Promedio(num: real, den: real): (r: real)
    ensures den <= 0.0 ==> r == 0.0
    ensures den > 0.0 ==> r * den == num
  {
    if den > 0.0 then num / den else 0.0
  }

  datatype Estadisticas = Estadisticas(
    totalVentas: nat,
    totalGalones: real,
    totalIngresos: real,
    totalPendiente: real,
    promedioGalonesPorVenta: real,
    promedioPrecioPorGalon: real)

  /** `estadisticasGenerales` over every sale, unfiltered. */
  function EstadisticasGenerales(ventas: seq<Venta>): (e: Estadisticas)
    ensures e.totalVentas == |ventas|
    ensures e.totalIngresos + e.totalPendiente == SumPrecio(ventas)
    ensures e.totalVentas == 0 ==> e.totalGalones == 0.0 && e.promedioGalonesPorVenta == 0.0
    ensures e.totalVentas > 0 ==> e.promedioGalonesPorVenta * e.totalVentas as real == e.totalGalones
    ensures e.totalGalones <= 0.0 ==> e.promedioPrecioPorGalon == 0.0
    ensures e.totalGalones > 0.0 ==> e.promedioPrecioPorGalon * e.totalGalones == SumPrecio(ventas)
  {
    PaidAndPendingPartition(ventas);
    var galones := SumGalones(ventas);
    var ingresos := SumPrecio(Pagadas(ventas));
    var pendiente := SumPrecio(Pendientes(ventas));
    Estadisticas(
      |ventas|, galones, ingresos, pendiente,
      Promedio(galones, |ventas| as real),
      Promedio(ingresos + pendiente, galones))
  }

  /**
   * The overall totals built sale by sale: zero for no sales, and each further sale counts once,
   * adds its gallons, and adds its price to the income when it is paid or to the pending amount
   * when it is not.
   */
  lemma GeneralesSnoc(ventas: seq<Venta>, v: Venta)
    ensures var z := EstadisticasGenerales([]);
      z.totalGalones == 0.0 && z.totalIngresos == 0.0 && z.totalPendiente == 0.0
    ensures var a, b := EstadisticasGenerales(ventas), EstadisticasGenerales(ventas + [v]);
      && b.totalVentas == a.totalVentas + 1
      && b.totalGalones == a.totalGalones + v.galones
      && b.totalIngresos == a.totalIngresos + (if v.pagado then v.precioTotal else 0.0)
      && b.totalPendiente == a.totalPendiente + (if v.pagado then 0.0 else v.precioTotal)
  {
    AppendSale(ventas, v);
  }

  /** The worker selector's "all workers" value. */
  const Todos := "todos"

  /**
   * The conditions of the report filter, each switched off by its empty value: a start instant,
   * an end-of-day instant (both through `instante`, the parse of a sale's ISO timestamp), a worker id.
   */
  predicate Cumple(v: Venta, inicio: Option<int>, finDia: Option<int>, trabajadorFiltro: string, instante: string -> int) {
    && (inicio.None? || instante(v.fecha) >= inicio.value)
    && (finDia.None? || instante(v.fecha) <= finDia.value)
    && (trabajadorFiltro == Todos || v.trabajadorId == trabajadorFiltro)
  }

  function CumpleCon(inicio: Option<int>, finDia: Option<int>, trabajadorFiltro: string, instante: string -> int): Venta -> bool {
    (v: Venta) => Cumple(v, inicio, finDia, trabajadorFiltro, instante)
  }

  function DesdeInicio(inicio: int, instante: string -> int): Venta -> bool {
    (v: Venta) => instante(v.fecha) >= inicio
  }

  function HastaFin(finDia: int, instante: string -> int): Venta -> bool {
    (v: Venta) => instante(v.fecha) <= finDia
  }

  function DelTrabajador(trabajadorId: string): Venta -> bool {
    (v: Venta) => v.trabajadorId == trabajadorId
  }

  /**
   * `ventasFiltradas`: a copy of the sales narrowed by each filter that is set, one after another.
   * The result is the single filter by all active conditions.
   */
  method VentasFiltradas(ventas: seq<Venta>, inicio: Option<int>, finDia: Option<int>, trabajadorFiltro: string, instante: string -> int)
    returns (r: seq<Venta>)
    ensures r == Filter(ventas, CumpleCon(inicio, finDia, trabajadorFiltro, instante))
    ensures inicio.None? && finDia.None? && trabajadorFiltro == Todos ==> r == ventas
  {
    r := ventas;
    FilterAll(ventas, CumpleCon(None, None, Todos, instante));
    if inicio.Some? {
      r := Filter(r, DesdeInicio(inicio.value, instante));
      FilterThenFilter(ventas, CumpleCon(None, None, Todos, instante), DesdeInicio(inicio.value, instante), CumpleCon(inicio, None, Todos, instante));
    }
    assert r == Filter(ventas, CumpleCon(inicio, None, Todos, instante));
    if finDia.Some? {
      r := Filter(r, HastaFin(finDia.value, instante));
      FilterThenFilter(ventas, CumpleCon(inicio, None, Todos, instante), HastaFin(finDia.value, instante), CumpleCon(inicio, finDia, Todos, instante));
    }
    assert r == Filter(ventas, CumpleCon(inicio, finDia, Todos, instante));
    if trabajadorFiltro != Todos {
      r := Filter(r, DelTrabajador(trabajadorFiltro));
      FilterThenFilter(ventas, CumpleCon(inicio, finDia, Todos, instante), DelTrabajador(trabajadorFiltro), CumpleCon(inicio, finDia, trabajadorFiltro, instante));
    }
  }

  /** The filtered sales are, in store order, exactly the sales meeting every active condition. */
  lemma FiltradasExact(ventas: seq<Venta>, inicio: Option<int>, finDia: Option<int>, trabajadorFiltro: string, instante: string -> int)
    ensures SubseqOf(Filter(ventas, CumpleCon(inicio, finDia, trabajadorFiltro, instante)), ventas)
    ensures forall v :: v in Filter(ventas, CumpleCon(inicio, finDia, trabajadorFiltro, instante)) <==>
      v in ventas && Cumple(v, inicio, finDia, trabajadorFiltro, instante)
  {
    FilterSubseq(ventas, CumpleCon(inicio, finDia, trabajadorFiltro, instante));
    FilterMembers(ventas, CumpleCon(inicio, finDia, trabajadorFiltro, instante));
  }

  /** The latest instant among some sales. */
  function MaxInstante(vs: seq<Venta>, instante: string -> int): (m: int)
    requires vs != []
    ensures forall i :: 0 <= i < |vs| ==> instante(vs[i].fecha) <= m
    ensures exists i :: 0 <= i < |vs| && instante(vs[i].fecha) == m
  {
    if |vs| == 1 then instante(vs[0].fecha)
    else
      var m := MaxInstante(vs[1..], instante);
      assert forall i :: 1 <= i < |vs| ==> vs[i] == vs[1..][i - 1];
      if instante(vs[0].fecha) >= m then instante(vs[0].fecha) else m
  }

  /** `ultimaVisita` as written: the latest instant, but the truthiness test also drops an instant of 0. */
  function UltimaVisitaComoEscrita(vs: seq<Venta>, instante: string -> int): (r: Option<int>)
    ensures r.Some? ==> vs != [] && r.value == MaxInstante(vs, instante) && r.value != 0
  {
    if vs != [] && MaxInstante(vs, instante) != 0 then Some(MaxInstante(vs, instante)) else None
  }

  /** `ultimaVisita` as intended: the latest instant whenever there is a visit. */
  function UltimaVisita(vs: seq<Venta>, instante: string -> int): (r: Option<int>)
    ensures r.Some? <==> vs != []
    ensures r.Some? ==> forall i :: 0 <= i < |vs| ==> instante(vs[i].fecha) <= r.value
    ensures r.Some? ==> exists i :: 0 <= i < |vs| && instante(vs[i].fecha) == r.value
  {
    if vs == [] then None else Some(MaxInstante(vs, instante))
  }

  /** A single visit at the epoch instant: the code as written reports no last visit at all. */
  lemma EpochVisitLost(v: Venta, instante: string -> int)
    requires instante(v.fecha) == 0
    ensures UltimaVisitaComoEscrita([v], instante) == None
    ensures UltimaVisita([v], instante) == Some(0)
  {
  }

  /** Apart from the epoch case the two agree. */
  lemma UltimaVisitaAgrees(vs: seq<Venta>, instante: string -> int)
    requires vs != [] && MaxInstante(vs, instante) != 0
    ensures UltimaVisitaComoEscrita(vs, instante) == UltimaVisita(vs, instante)
  {
  }

  datatype ClienteStat = ClienteStat(
    cliente: Cliente,
    totalGalones: real,
    totalGastado: real,
    totalPagado: real,
    totalDeuda: real,
    numeroVisitas: nat,
    ultimaVisita: Option<int>,
    promedioGalonesPorVisita: real)

  /** One client's rollup over the filtered sales. */
  function EstadisticaCliente(cliente: Cliente, ventasFiltradas: seq<Venta>, instante: string -> int): ClienteStat {
    var ventasCliente := Filter(ventasFiltradas, DelCliente(cliente.id));
    var galones := SumGalones(ventasCliente);
    ClienteStat(
      cliente, galones, SumPrecio(ventasCliente), SumPrecio(Pagadas(ventasCliente)), SumPrecio(Pendientes(ventasCliente)),
      |ventasCliente|, UltimaVisita(ventasCliente, instante), Promedio(galones, |ventasCliente| as real))
  }

  /** A client's spending splits into paid and owed, and the per-visit average is guarded. */
  lemma ClienteStatTotals(cliente: Cliente, ventasFiltradas: seq<Venta>, instante: string -> int)
    ensures EstadisticaCliente(cliente, ventasFiltradas, instante).cliente == cliente
    ensures var s := EstadisticaCliente(cliente, ventasFiltradas, instante);
      s.totalGastado == s.totalPagado + s.totalDeuda
    ensures var s := EstadisticaCliente(cliente, ventasFiltradas, instante);
      s.numeroVisitas == 0 ==>
        s.totalGalones == 0.0 && s.totalGastado == 0.0 && s.totalPagado == 0.0 && s.totalDeuda == 0.0 &&
        s.promedioGalonesPorVisita == 0.0
    ensures var s := EstadisticaCliente(cliente, ventasFiltradas, instante);
      s.numeroVisitas > 0 ==> s.promedioGalonesPorVisita * s.numeroVisitas as real == s.totalGalones
  {
    var ventasCliente := Filter(ventasFiltradas, DelCliente(cliente.id));
    var s := EstadisticaCliente(cliente, ventasFiltradas, instante);
    assert s.totalGalones == SumGalones(ventasCliente) && s.numeroVisitas == |ventasCliente|;
    assert s.totalGastado == SumPrecio(ventasCliente);
    assert s.totalPagado == SumPrecio(Pagadas(ventasCliente)) && s.totalDeuda == SumPrecio(Pendientes(ventasCliente));
    PaidAndPendingPartition(ventasCliente);
    if ventasCliente == [] {
      assert Pagadas(ventasCliente) == [] && Pendientes(ventasCliente) == [];
    }
  }

  /**
   * A client's rollup built sale by sale: a sale of another client changes nothing, and a sale of
   * this client is one more visit, adds its gallons and its price to the spending, and its price to
   * the paid amount when it is paid or to the debt when it is not.
   */
  lemma ClienteStatSnoc(cliente: Cliente, ventasFiltradas: seq<Venta>, v: Venta, instante: string -> int)
    ensures v.clienteId != cliente.id ==>
      EstadisticaCliente(cliente, ventasFiltradas + [v], instante) == EstadisticaCliente(cliente, ventasFiltradas, instante)
    ensures v.clienteId == cliente.id ==>
      var a, b := EstadisticaCliente(cliente, ventasFiltradas, instante), EstadisticaCliente(cliente, ventasFiltradas + [v], instante);
      && b.numeroVisitas == a.numeroVisitas + 1
      && b.totalGalones == a.totalGalones + v.galones
      && b.totalGastado == a.totalGastado + v.precioTotal
      && b.totalPagado == a.totalPagado + (if v.pagado then v.precioTotal else 0.0)
      && b.totalDeuda == a.totalDeuda + (if v.pagado then 0.0 else v.precioTotal)
  {
    var ventasCliente := Filter(ventasFiltradas, DelCliente(cliente.id));
    FilterSnoc(ventasFiltradas, v, DelCliente(cliente.id));
    if v.clienteId == cliente.id {
      assert Filter(ventasFiltradas + [v], DelCliente(cliente.id)) == ventasCliente + [v];
      AppendSale(ventasCliente, v);
    } else {
      assert Filter(ventasFiltradas + [v], DelCliente(cliente.id)) == ventasCliente;
    }
  }

  /**
   * A client has a visit exactly when some filtered sale is theirs, and then the last visit is no
   * earlier than any of those sales.
   */
  lemma ClienteStatVisits(cliente: Cliente, ventasFiltradas: seq<Venta>, instante: string -> int)
    ensures EstadisticaCliente(cliente, ventasFiltradas, instante).numeroVisitas > 0 <==>
      exists i :: 0 <= i < |ventasFiltradas| && ventasFiltradas[i].clienteId == cliente.id
    ensures var s := EstadisticaCliente(cliente, ventasFiltradas, instante);
      s.ultimaVisita.Some? <==> s.numeroVisitas > 0
    ensures var s := EstadisticaCliente(cliente, ventasFiltradas, instante);
      s.ultimaVisita.Some? ==> forall i :: 0 <= i < |ventasFiltradas| && ventasFiltradas[i].clienteId == cliente.id ==>
        instante(ventasFiltradas[i].fecha) <= s.ultimaVisita.value
  {
    var ventasCliente := Filter(ventasFiltradas, DelCliente(cliente.id));
    FilterNonEmpty(ventasFiltradas, DelCliente(cliente.id));
    var ultima := UltimaVisita(ventasCliente, instante);
    if ultima.Some? {
      forall i | 0 <= i < |ventasFiltradas| && ventasFiltradas[i].clienteId == cliente.id
        ensures instante(ventasFiltradas[i].fecha) <= ultima.value
      {
        FilterMembers(ventasFiltradas, DelCliente(cliente.id));
        assert ventasFiltradas[i] in ventasCliente;
      }
    }
  }

  function StatDeCliente(ventasFiltradas: seq<Venta>, instante: string -> int): Cliente -> ClienteStat {
    (c: Cliente) => EstadisticaCliente(c, ventasFiltradas, instante)
  }

  function ConVisitas(s: ClienteStat): bool { s.numeroVisitas > 0 }

  function GalonesStat(s: ClienteStat): real { s.totalGalones }

  /** `estadisticasPorCliente`: the rollups of clients with a filtered sale, most gallons first. */
  function EstadisticasPorCliente(clientes: seq<Cliente>, ventasFiltradas: seq<Venta>, instante: string -> int): (r: seq<ClienteStat>)
    ensures SortedDesc(r, GalonesStat)
    ensures |r| <= |clientes|
  {
    SortDesc(Filter(Map(clientes, StatDeCliente(ventasFiltradas, instante)), ConVisitas), GalonesStat)
  }

  /**
   * The per-client rollup holds exactly the rollups of the clients that have a filtered sale, each
   * as often as the client list yields it.
   */
  lemma PorClienteMembers(clientes: seq<Cliente>, ventasFiltradas: seq<Venta>, instante: string -> int)
    ensures forall s :: s in EstadisticasPorCliente(clientes, ventasFiltradas, instante) <==>
      s.numeroVisitas > 0 && exists i :: 0 <= i < |clientes| && s == EstadisticaCliente(clientes[i], ventasFiltradas, instante)
    ensures multiset(EstadisticasPorCliente(clientes, ventasFiltradas, instante)) ==
      multiset(Filter(Map(clientes, StatDeCliente(ventasFiltradas, instante)), ConVisitas))
  {
    var f := StatDeCliente(ventasFiltradas, instante);
    var m := Map(clientes, f);
    MapMembers(clientes, f);
    FilterMembers(m, ConVisitas);
    SortDescMembers(Filter(m, ConVisitas), GalonesStat);
    forall s ensures s in EstadisticasPorCliente(clientes, ventasFiltradas, instante) <==>
      s.numeroVisitas > 0 && exists i :: 0 <= i < |clientes| && s == EstadisticaCliente(clientes[i], ventasFiltradas, instante)
    {
      assert s in EstadisticasPorCliente(clientes, ventasFiltradas, instante) <==> s in m && ConVisitas(s);
      assert s in m <==> exists i :: 0 <= i < |clientes| && s == f(clientes[i]);
      assert forall i :: 0 <= i < |clientes| ==> f(clientes[i]) == EstadisticaCliente(clientes[i], ventasFiltradas, instante);
    }
  }

  /** A client's rollup is listed exactly when some filtered sale is that client's. */
  lemma PorClienteIncludes(clientes: seq<Cliente>, ventasFiltradas: seq<Venta>, instante: string -> int, k: int)
    requires 0 <= k < |clientes|
    ensures EstadisticaCliente(clientes[k], ventasFiltradas, instante) in EstadisticasPorCliente(clientes, ventasFiltradas, instante) <==>
      exists i :: 0 <= i < |ventasFiltradas| && ventasFiltradas[i].clienteId == clientes[k].id
  {
    PorClienteMembers(clientes, ventasFiltradas, instante);
    ClienteStatVisits(clientes[k], ventasFiltradas, instante);
  }

  datatype TrabajadorStat = TrabajadorStat(
    trabajador: Trabajador,
    totalVentas: nat,
    totalGalones: real,
    totalIngresos: real,
    promedioGalonesPorVenta: real)

  /** One worker's rollup over the filtered sales. */
  function EstadisticaTrabajador(trabajador: Trabajador, ventasFiltradas: seq<Venta>): TrabajadorStat {
    var ventasTrabajador := Filter(ventasFiltradas, DelTrabajador(trabajador.id));
    var galones := SumGalones(ventasTrabajador);
    TrabajadorStat(
      trabajador, |ventasTrabajador|, galones, SumPrecio(Pagadas(ventasTrabajador)),
      Promedio(galones, |ventasTrabajador| as real))
  }

  /** A worker's rollup: a sale is counted exactly when some filtered sale is theirs, and the average is guarded. */
  lemma TrabajadorStatProps(trabajador: Trabajador, ventasFiltradas: seq<Venta>)
    ensures EstadisticaTrabajador(trabajador, ventasFiltradas).trabajador == trabajador
    ensures EstadisticaTrabajador(trabajador, ventasFiltradas).totalVentas > 0 <==>
      exists i :: 0 <= i < |ventasFiltradas| && ventasFiltradas[i].trabajadorId == trabajador.id
    ensures var s := EstadisticaTrabajador(trabajador, ventasFiltradas);
      s.totalVentas == 0 ==> s.totalGalones == 0.0 && s.totalIngresos == 0.0 && s.promedioGalonesPorVenta == 0.0
    ensures var s := EstadisticaTrabajador(trabajador, ventasFiltradas);
      s.totalVentas > 0 ==> s.promedioGalonesPorVenta * s.totalVentas as real == s.totalGalones
  {
    var ventasTrabajador := Filter(ventasFiltradas, DelTrabajador(trabajador.id));
    FilterNonEmpty(ventasFiltradas, DelTrabajador(trabajador.id));
    assert ventasTrabajador == [] ==> Pagadas(ventasTrabajador) == [];
  }

  /**
   * A worker's rollup built sale by sale: a sale by another worker changes nothing, and a sale by
   * this worker is one more sale, adds its gallons, and adds its price to the income only when paid.
   */
  lemma TrabajadorStatSnoc(trabajador: Trabajador, ventasFiltradas: seq<Venta>, v: Venta)
    ensures v.trabajadorId != trabajador.id ==>
      EstadisticaTrabajador(trabajador, ventasFiltradas + [v]) == EstadisticaTrabajador(trabajador, ventasFiltradas)
    ensures v.trabajadorId == trabajador.id ==>
      var a, b := EstadisticaTrabajador(trabajador, ventasFiltradas), EstadisticaTrabajador(trabajador, ventasFiltradas + [v]);
      && b.totalVentas == a.totalVentas + 1
      && b.totalGalones == a.totalGalones + v.galones
      && b.totalIngresos == a.totalIngresos + (if v.pagado then v.precioTotal else 0.0)
  {
    var ventasTrabajador := Filter(ventasFiltradas, DelTrabajador(trabajador.id));
    FilterSnoc(ventasFiltradas, v, DelTrabajador(trabajador.id));
    if v.trabajadorId == trabajador.id {
      assert Filter(ventasFiltradas + [v], DelTrabajador(trabajador.id)) == ventasTrabajador + [v];
      AppendSale(ventasTrabajador, v);
    } else {
      assert Filter(ventasFiltradas + [v], DelTrabajador(trabajador.id)) == ventasTrabajador;
    }
  }

  function StatDeTrabajador(ventasFiltradas: seq<Venta>): Trabajador -> TrabajadorStat {
    (t: Trabajador) => EstadisticaTrabajador(t, ventasFiltradas)
  }

  function ConVentas(s: TrabajadorStat): bool { s.totalVentas > 0 }

  function VentasStat(s: TrabajadorStat): real { s.totalVentas as real }

  /** `estadisticasPorTrabajador`: the rollups of workers with a filtered sale, most sales first. */
  function EstadisticasPorTrabajador(trabajadores: seq<Trabajador>, ventasFiltradas: seq<Venta>): (r: seq<TrabajadorStat>)
    ensures SortedDesc(r, VentasStat)
    ensures |r| <= |trabajadores|
  {
    SortDesc(Filter(Map(trabajadores, StatDeTrabajador(ventasFiltradas)), ConVentas), VentasStat)
  }

  /**
   * The per-worker rollup holds exactly the rollups of the workers that have a filtered sale, each
   * as often as the worker list yields it.
   */
  lemma PorTrabajadorMembers(trabajadores: seq<Trabajador>, ventasFiltradas: seq<Venta>)
    ensures forall s :: s in EstadisticasPorTrabajador(trabajadores, ventasFiltradas) <==>
      s.totalVentas > 0 && exists i :: 0 <= i < |trabajadores| && s == EstadisticaTrabajador(trabajadores[i], ventasFiltradas)
    ensures multiset(EstadisticasPorTrabajador(trabajadores, ventasFiltradas)) ==
      multiset(Filter(Map(trabajadores, StatDeTrabajador(ventasFiltradas)), ConVentas))
  {
    var f := StatDeTrabajador(ventasFiltradas);
    var m := Map(trabajadores, f);
    MapMembers(trabajadores, f);
    FilterMembers(m, ConVentas);
    SortDescMembers(Filter(m, ConVentas), VentasStat);
    forall s ensures s in EstadisticasPorTrabajador(trabajadores, ventasFiltradas) <==>
      s.totalVentas > 0 && exists i :: 0 <= i < |trabajadores| && s == EstadisticaTrabajador(trabajadores[i], ventasFiltradas)
    {
      assert s in EstadisticasPorTrabajador(trabajadores, ventasFiltradas) <==> s in m && ConVentas(s);
      assert s in m <==> exists i :: 0 <= i < |trabajadores| && s == f(trabajadores[i]);
      assert forall i :: 0 <= i < |trabajadores| ==> f(trabajadores[i]) == EstadisticaTrabajador(trabajadores[i], ventasFiltradas);
    }
  }

  datatype DiaStat = DiaStat(fecha: string, totalVentas: nat, totalGalones: real, totalIngresos: real)

  /** One entry of the seven-day series: the stored sales of that day, paid income only. */
  function Dia(ventasAlmacen: seq<Venta>, fecha: string, hoy: string): DiaStat {
    var delDia := GetVentasDelDia(ventasAlmacen, Some(fecha), hoy);
    DiaStat(fecha, |delDia|, SumGalones(delDia), SumPrecio(Pagadas(delDia)))
  }

  /** A day's entry counts a sale exactly when some stored sale falls on that day; an empty day has no totals. */
  lemma DiaCuenta(ventasAlmacen: seq<Venta>, fecha: string, hoy: string)
    requires fecha != []
    ensures Dia(ventasAlmacen, fecha, hoy).fecha == fecha
    ensures Dia(ventasAlmacen, fecha, hoy).totalVentas > 0 <==>
      exists i :: 0 <= i < |ventasAlmacen| && DatePart(ventasAlmacen[i].fecha) == fecha
    ensures Dia(ventasAlmacen, fecha, hoy).totalVentas == 0 ==>
      Dia(ventasAlmacen, fecha, hoy).totalGalones == 0.0 && Dia(ventasAlmacen, fecha, hoy).totalIngresos == 0.0
  {
    FilterNonEmpty(ventasAlmacen, DelDia(fecha));
    var delDia := GetVentasDelDia(ventasAlmacen, Some(fecha), hoy);
    assert delDia == [] ==> Pagadas(delDia) == [];
  }

  /** A day's entry agrees with the day summary of the same day. */
  lemma DiaIsResumen(ventasAlmacen: seq<Venta>, fecha: string, hoy: string)
    ensures Dia(ventasAlmacen, fecha, hoy).totalVentas == Resumen(GetVentasDelDia(ventasAlmacen, Some(fecha), hoy)).totalVentas
    ensures Dia(ventasAlmacen, fecha, hoy).totalGalones == Resumen(GetVentasDelDia(ventasAlmacen, Some(fecha), hoy)).totalGalones
    ensures Dia(ventasAlmacen, fecha, hoy).totalIngresos == Resumen(GetVentasDelDia(ventasAlmacen, Some(fecha), hoy)).totalIngresos
  {
  }

  /** The series entry of the day `j` days before today. */
  function DiaDe(ventasAlmacen: seq<Venta>, claveDia: int -> string, hoy: string): int -> DiaStat {
    j => Dia(ventasAlmacen, claveDia(j), hoy)
  }

  /** Pushing the entry for the next older-to-newer position keeps the series aligned with its days. */
  lemma SerieAppend<T>(dias: seq<T>, x: T, f: int -> T)
    requires forall k :: 0 <= k < |dias| ==> dias[k] == f(6 - k)
    requires x == f(6 - |dias|)
    ensures forall k :: 0 <= k < |dias| + 1 ==> (dias + [x])[k] == f(6 - k)
  {
  }

  /**
   * `ventasPorDia`: for i from 6 down to 0 the day i days before today, pushed in turn, so the series
   * runs from the oldest day to today. `claveDia(i)` is the ISO day key of that day; the report
   * filters play no part.
   */
  method VentasPorDia(ventasAlmacen: seq<Venta>, claveDia: int -> string, hoy: string) returns (dias: seq<DiaStat>)
    ensures |dias| == 7
    ensures forall k :: 0 <= k < 7 ==> dias[k] == Dia(ventasAlmacen, claveDia(6 - k), hoy)
  {
    dias := [];
    var i := 6;
    ghost var diaDe := DiaDe(ventasAlmacen, claveDia, hoy);
    while i >= 0
      invariant -1 <= i <= 6
      invariant |dias| == 6 - i
      invariant forall k :: 0 <= k < |dias| ==> dias[k] == diaDe(6 - k)
      decreases i + 1
    {
      var dia := Dia(ventasAlmacen, claveDia(i), hoy);
      SerieAppend(dias, dia, diaDe);
      dias := dias + [dia];
      i := i - 1;
    }
  }

  /** `valor || 'N/A'`: a missing or empty name shows as N/A. */
  function ONa(nombre: Option<string>): (r: string)
    ensures r != []
    ensures nombre.Some? && nombre.value != [] ==> r == nombre.value
    ensures !(nombre.Some? && nombre.value != []) ==> r == "N/A"
  {
    if nombre.Some? && nombre.value != [] then nombre.value else "N/A"
  }

  function NombreCliente(clientes: seq<Cliente>, clienteId: string): Option<string> {
    match Find(clientes, clienteId, ClienteId)
    case None => None
    case Some(c) => Some(c.nombre)
  }

  function PlacaCliente(clientes: seq<Cliente>, clienteId: string): Option<string> {
    match Find(clientes, clienteId, ClienteId)
    case None => None
    case Some(c) => Some(c.placa)
  }

  function NombreTrabajador(trabajadores: seq<Trabajador>, trabajadorId: string): Option<string> {
    match Find(trabajadores, trabajadorId, TrabajadorId)
    case None => None
    case Some(t) => Some(t.nombre)
  }

  /** The CSV header: the keys of an exported row, in order. */
  const Encabezado: seq<string> := ["Fecha", "Cliente", "Placa", "Galones", "Precio", "Pagado", "Trabajador", "Notas"]

  /** The header line: the keys joined by commas. */
  function EncabezadoCsv(): string {
    Join(Encabezado, ',')
  }

  /**
   * The values of one exported row, in header order. `fmtFecha` is the locale date text and
   * `fmtNum` the number-to-text conversion, both left to the caller.
   */
  function FilaCsv(v: Venta, clientes: seq<Cliente>, trabajadores: seq<Trabajador>, fmtFecha: string -> string, fmtNum: real -> string): (fila: seq<string>)
    ensures |fila| == |Encabezado|
    ensures fila[0] == fmtFecha(v.fecha)
    ensures fila[3] == fmtNum(v.galones) && fila[4] == fmtNum(v.precioTotal)
    ensures Find(clientes, v.clienteId, ClienteId).Some? ==>
      var c := Find(clientes, v.clienteId, ClienteId).value;
      fila[1] == ONa(Some(c.nombre)) && fila[2] == ONa(Some(c.placa))
    ensures Find(trabajadores, v.trabajadorId, TrabajadorId).Some? ==>
      fila[6] == ONa(Some(Find(trabajadores, v.trabajadorId, TrabajadorId).value.nombre))
    ensures fila[5] == (if v.pagado then "Sí" else "No")
    ensures fila[7] == (if v.notas.Some? then v.notas.value else [])
    ensures !HasId(clientes, v.clienteId, ClienteId) ==> fila[1] == "N/A" && fila[2] == "N/A"
    ensures !HasId(trabajadores, v.trabajadorId, TrabajadorId) ==> fila[6] == "N/A"
  {
    [ fmtFecha(v.fecha),
      ONa(NombreCliente(clientes, v.clienteId)),
      ONa(PlacaCliente(clientes, v.clienteId)),
      fmtNum(v.galones),
      fmtNum(v.precioTotal),
      if v.pagado then "Sí" else "No",
      ONa(NombreTrabajador(trabajadores, v.trabajadorId)),
      if v.notas.Some? then v.notas.value else [] ]
  }

  function LineaDe(clientes: seq<Cliente>, trabajadores: seq<Trabajador>, fmtFecha: string -> string, fmtNum: real -> string): Venta -> string {
    (v: Venta) => Join(FilaCsv(v, clientes, trabajadores, fmtFecha, fmtNum), ',')
  }

  /** The lines of the export: the header (empty when there are no rows), then one line per sale. */
  function LineasCsv(ventasFiltradas: seq<Venta>, clientes: seq<Cliente>, trabajadores: seq<Trabajador>, fmtFecha: string -> string, fmtNum: real -> string): (r: seq<string>)
    ensures |r| == |ventasFiltradas| + 1
    ensures r[0] == if ventasFiltradas == [] then [] else EncabezadoCsv()
    ensures forall i :: 0 <= i < |ventasFiltradas| ==> r[i + 1] == Join(FilaCsv(ventasFiltradas[i], clientes, trabajadores, fmtFecha, fmtNum), ',')
  {
    var filas := Map(ventasFiltradas, LineaDe(clientes, trabajadores, fmtFecha, fmtNum));
    var r := [if ventasFiltradas == [] then [] else EncabezadoCsv()] + filas;
    assert forall i :: 0 <= i < |ventasFiltradas| ==> r[i + 1] == filas[i];
    r
  }

  /** The exported text: the lines joined by newlines, no quoting or escaping. */
  function Csv(ventasFiltradas: seq<Venta>, clientes: seq<Cliente>, trabajadores: seq<Trabajador>, fmtFecha: string -> string, fmtNum: real -> string): string {
    Join(LineasCsv(ventasFiltradas, clientes, trabajadores, fmtFecha, fmtNum), '\n')
  }

  /** No exported value holds `c`. */
  predicate CamposSin(ventasFiltradas: seq<Venta>, clientes: seq<Cliente>, trabajadores: seq<Trabajador>, fmtFecha: string -> string, fmtNum: real -> string, c: char) {
    forall i, j :: 0 <= i < |ventasFiltradas| && 0 <= j < |Encabezado| ==> c !in FilaCsv(ventasFiltradas[i], clientes, trabajadores, fmtFecha, fmtNum)[j]
  }

  /** With no newline in any value, the export reads back as the header plus one line per sale. */
  lemma CsvLines(ventasFiltradas: seq<Venta>, clientes: seq<Cliente>, trabajadores: seq<Trabajador>, fmtFecha: string -> string, fmtNum: real -> string)
    requires CamposSin(ventasFiltradas, clientes, trabajadores, fmtFecha, fmtNum, '\n')
    ensures Split(Csv(ventasFiltradas, clientes, trabajadores, fmtFecha, fmtNum), '\n') == LineasCsv(ventasFiltradas, clientes, trabajadores, fmtFecha, fmtNum)
    ensures |Split(Csv(ventasFiltradas, clientes, trabajadores, fmtFecha, fmtNum), '\n')| == |ventasFiltradas| + 1
  {
    var lineas := LineasCsv(ventasFiltradas, clientes, trabajadores, fmtFecha, fmtNum);
    forall k | 0 <= k < |lineas| ensures '\n' !in lineas[k] {
      if k == 0 {
        JoinAvoids(Encabezado, ',', '\n');
        assert lineas[0] == [] || lineas[0] == EncabezadoCsv();
      } else {
        JoinAvoids(FilaCsv(ventasFiltradas[k - 1], clientes, trabajadores, fmtFecha, fmtNum), ',', '\n');
      }
    }
    SplitJoin(lineas, '\n');
  }

  /** With no comma in a row's values, its line reads back as those eight values. */
  lemma CsvRowFields(v: Venta, clientes: seq<Cliente>, trabajadores: seq<Trabajador>, fmtFecha: string -> string, fmtNum: real -> string)
    requires forall j :: 0 <= j < |Encabezado| ==> ',' !in FilaCsv(v, clientes, trabajadores, fmtFecha, fmtNum)[j]
    ensures Split(Join(FilaCsv(v, clientes, trabajadores, fmtFecha, fmtNum), ','), ',') == FilaCsv(v, clientes, trabajadores, fmtFecha, fmtNum)
  {
    SplitJoin(FilaCsv(v, clientes, trabajadores, fmtFecha, fmtNum), ',');
  }

  /** Values are not escaped: any value holding a comma makes its row's line read back as more than eight values. */
  lemma CommaInValueShiftsColumns(fila: seq<string>, k: int)
    requires |fila| == |Encabezado| && 0 <= k < |fila| && ',' in fila[k]
    ensures |Split(Join(fila, ','), ',')| > |Encabezado|
  {
    SplitCount(Join(fila, ','), ',');
    JoinCount(fila, ',');
    CountPositive(fila[k], ',');
    CountAllAtLeast(fila, ',', k);
  }

  /** A note holding a comma makes its line read back as more than eight values. */
  lemma CommaInNotesShiftsColumns(v: Venta, clientes: seq<Cliente>, trabajadores: seq<Trabajador>, fmtFecha: string -> string, fmtNum: real -> string)
    requires v.notas.Some? && ',' in v.notas.value
    ensures |Split(Join(FilaCsv(v, clientes, trabajadores, fmtFecha, fmtNum), ','), ',')| > |Encabezado|
  {
    CommaInValueShiftsColumns(FilaCsv(v, clientes, trabajadores, fmtFecha, fmtNum), 7);
  }

  /**
   * A date text holding a comma, as a locale format with a comma between date and time writes it,
   * makes its line read back as more than eight values.
   */
  lemma CommaInDateShiftsColumns(v: Venta, clientes: seq<Cliente>, trabajadores: seq<Trabajador>, fmtFecha: string -> string, fmtNum: real -> string)
    requires ',' in fmtFecha(v.fecha)
    ensures |Split(Join(FilaCsv(v, clientes, trabajadores, fmtFecha, fmtNum), ','), ',')| > |Encabezado|
  {
    CommaInValueShiftsColumns(FilaCsv(v, clientes, trabajadores, fmtFecha, fmtNum), 0);
  }
}
