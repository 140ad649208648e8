/** The records the app keeps, field for field as src/lib/types.ts declares them. */
module Types {
  import opened Wrappers

  /** A client's payment terms: `corriente` pays at the pump, `credito` pays later. */
  datatype TipoCliente = Corriente | Credito

  /**
   * A client and the vehicle it fills. `tipoCliente` is absent in records saved before the field
   * existed; `totalGalones` is never stored, only attached on lookup.
   */
  datatype Cliente = Cliente(
    id: string,
    nombre: string,
    placa: string,
    capacidadGalones: real,
    tipoCliente: Option<TipoCliente>,
    fechaRegistro: string,
    totalGalones: Option<real>)

  /** One dispensing: who bought, who served, when (an ISO timestamp), how much, and whether it is paid. */
  datatype Venta = Venta(
    id: string,
    clienteId: string,
    trabajadorId: string,
    fecha: string,
    galones: real,
    precioTotal: real,
    pagado: bool,
    notas: Option<string>)

  /** A worker who records sales. */
  datatype Trabajador = Trabajador(id: string, nombre: string, fechaRegistro: string)

  /** The derived summary of one day's sales. */
  datatype ResumenDia = ResumenDia(
    totalVentas: nat,
    totalGalones: real,
    totalIngresos: real,
    ventasPendientes: nat,
    importePendiente: real)

  /** The fields of a new client the clients page supplies; the provider adds `id` and `fechaRegistro`. */
  datatype DatosCliente = DatosCliente(nombre: string, placa: string, capacidadGalones: real, tipoCliente: TipoCliente)

  /** The fields of a new sale the sales page supplies; the provider adds `id`, `fecha` and `trabajadorId`. */
  datatype DatosVenta = DatosVenta(clienteId: string, galones: real, precioTotal: real, pagado: bool, notas: Option<string>)

  function ClienteId(c: Cliente): string { c.id }
  function VentaId(v: Venta): string { v.id }
  function TrabajadorId(t: Trabajador): string { t.id }
}
