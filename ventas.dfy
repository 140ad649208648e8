/**
 * The sale-entry page of src/app/ventas/page.tsx: the ordered validation of a new sale, the
 * credit-client rule, the form prefilled from the picked client, the edit form's record and the
 * list of today's sales.
 */
module VentasPage {
  import opened Wrappers
  import opened Text
  import opened Records
  import opened Types
  import opened Storage
  import opened AppContext

  /** Why a submitted sale is refused, in the order the checks run. */
  datatype ErrorVenta = SinTrabajador | SinCliente | GalonesInvalidos | PrecioInvalido | ExcedeCapacidad

  /** `notas.trim() || undefined`: blank notes are dropped, others are trimmed. */
  function NormalizarNotas(notas: string): (r: Option<string>)
    ensures r.None? <==> AllSpace(notas)
    ensures r.Some? ==> r.value == Trim(notas) && r.value != [] && !IsSpace(r.value[0]) && !IsSpace(r.value[|r.value| - 1])
  {
    if Trim(notas) == [] then None else Some(Trim(notas))
  }

  /** Normalised notes are a fixed point: normalising them again changes nothing. */
  lemma NormalizarNotasIdempotent(notas: string)
    ensures NormalizarNotas(notas).Some? ==> NormalizarNotas(NormalizarNotas(notas).value) == NormalizarNotas(notas)
  {
    TrimIdempotent(notas);
  }

  /** A number field holds a usable amount: it is filled and strictly positive. */
  predicate Positivo(campo: Option<real>) {
    campo.Some? && campo.value > 0.0
  }

  /**
   * `handleSubmit`'s checks, in order, and the sale data sent on success. An empty number field is
   * `None`. Only a client of type corriente keeps the paid switch; any other client's sale is unpaid.
   */
  function ValidarVenta(hayTrabajador: bool, cliente: Option<Cliente>, galones: Option<real>, precioTotal: Option<real>, pagado: bool, notas: string): (r: Result<DatosVenta, ErrorVenta>)
    ensures r == Err(SinTrabajador) <==> !hayTrabajador
    ensures r == Err(SinCliente) <==> hayTrabajador && cliente.None?
    ensures r == Err(GalonesInvalidos) <==> hayTrabajador && cliente.Some? && !Positivo(galones)
    ensures r == Err(PrecioInvalido) <==> hayTrabajador && cliente.Some? && Positivo(galones) && !Positivo(precioTotal)
    ensures r == Err(ExcedeCapacidad) <==>
      hayTrabajador && cliente.Some? && Positivo(galones) && Positivo(precioTotal) && galones.value > cliente.value.capacidadGalones
    ensures r.Ok? ==>
      && cliente.Some? && r.value.clienteId == cliente.value.id
      && r.value.galones == galones.value && 0.0 < r.value.galones <= cliente.value.capacidadGalones
      && r.value.precioTotal == precioTotal.value && r.value.precioTotal > 0.0
      && (r.value.pagado <==> pagado && cliente.value.tipoCliente == Some(Corriente))
      && r.value.notas == NormalizarNotas(notas)
  {
    if !hayTrabajador then Err(SinTrabajador)
    else if cliente.None? then Err(SinCliente)
    else if !Positivo(galones) then Err(GalonesInvalidos)
    else if !Positivo(precioTotal) then Err(PrecioInvalido)
    else if galones.value > cliente.value.capacidadGalones then Err(ExcedeCapacidad)
    else
      var c := cliente.value;
      Ok(DatosVenta(c.id, galones.value, precioTotal.value, if c.tipoCliente == Some(Corriente) then pagado else false, NormalizarNotas(notas)))
  }

  /** `precioSugerido`: 10 for a credit client, 5 otherwise. */
  function PrecioSugerido(tipo: Option<TipoCliente>): (r: real)
    ensures r > 0.0
    ensures r == 10.0 <==> tipo == Some(Credito)
    ensures tipo != Some(Credito) ==> r == 5.0
  {
    if tipo == Some(Credito) then 10.0 else 5.0
  }

  /** The paid switch after picking a client: on only for a client of type corriente. */
  function PagadoSugerido(tipo: Option<TipoCliente>): (r: bool)
    ensures tipo == Some(Corriente) ==> r
    ensures tipo == Some(Credito) || tipo.None? ==> !r
  {
    tipo == Some(Corriente)
  }

  /**
   * A form prefilled from a client with a positive capacity passes validation, and the sale it makes
   * is paid exactly when the client is of type corriente.
   */
  lemma PrefillValid(c: Cliente, notas: string)
    requires c.capacidadGalones > 0.0
    ensures var r := ValidarVenta(true, Some(c), Some(c.capacidadGalones), Some(PrecioSugerido(c.tipoCliente)), PagadoSugerido(c.tipoCliente), notas);
      r.Ok? && r.value.galones == c.capacidadGalones && (r.value.pagado <==> c.tipoCliente == Some(Corriente))
  {
  }

  /**
   * `EditVentaForm`'s `handleSubmit`: the sale with its amounts, paid flag and notes replaced and
   * the rest kept.
   */
  function EditarVenta(venta: Venta, galones: real, precioTotal: real, pagado: bool, notas: string): (r: Venta)
    ensures r.id == venta.id && r.clienteId == venta.clienteId && r.trabajadorId == venta.trabajadorId && r.fecha == venta.fecha
    ensures r.galones == galones && r.precioTotal == precioTotal && r.pagado == pagado && r.notas == NormalizarNotas(notas)
  {
    venta.(galones := galones, precioTotal := precioTotal, pagado := pagado, notas := NormalizarNotas(notas))
  }

  /** The edit form's initial notes text: `venta.notas || ''`. */
  function TextoNotas(notas: Option<string>): (r: string)
    ensures notas.Some? ==> r == notas.value
    ensures notas.None? ==> r == []
  {
    if notas.Some? then notas.value else []
  }

  /** Saving the edit form untouched gives back a sale whose notes came from the form. */
  lemma EditUntouchedKeepsVenta(venta: Venta, notasEscritas: string)
    requires venta.notas == NormalizarNotas(notasEscritas)
    ensures EditarVenta(venta, venta.galones, venta.precioTotal, venta.pagado, TextoNotas(venta.notas)) == venta
  {
    TrimIdempotent(notasEscritas);
  }

  /** `ventasHoy.reverse()`: today's stored sales, latest first. */
  function VentasHoyListadas(ventasAlmacen: seq<Venta>, hoy: string): seq<Venta> {
    Reverse(GetVentasDelDia(ventasAlmacen, None, hoy))
  }

  /** The list holds exactly the stored sales dated today, the latest stored first. */
  lemma VentasHoyExact(ventasAlmacen: seq<Venta>, hoy: string)
    ensures forall v :: v in VentasHoyListadas(ventasAlmacen, hoy) <==> v in ventasAlmacen && DatePart(v.fecha) == hoy
    ensures var hoyVentas := GetVentasDelDia(ventasAlmacen, None, hoy);
      var r := VentasHoyListadas(ventasAlmacen, hoy);
      |r| == |hoyVentas| && forall i :: 0 <= i < |hoyVentas| ==> r[i] == hoyVentas[|hoyVentas| - 1 - i]
  {
    var hoyVentas := GetVentasDelDia(ventasAlmacen, None, hoy);
    assert DiaBuscado(None, hoy) == hoy;
    DaySalesExact(ventasAlmacen, None, hoy);
    ReverseMembers(hoyVentas);
    assert VentasHoyListadas(ventasAlmacen, hoy) == Reverse(hoyVentas);
  }

  /** The page's form and edit-dialog state, over the provider it submits to. */
  class VentasPage {
    const app: AppProvider
    var clienteSeleccionado: Option<Cliente>
    var galones: Option<real>
    var precioTotal: Option<real>
    var pagado: bool
    var notas: string
    var loading: bool
    var ventaEditando: Option<Venta>
    var isEditDialogOpen: bool

    /** The form's defaults: no client, empty amounts and notes, paid switched on. */
    predicate FormularioVacio()
      reads this
    {
      clienteSeleccionado.None? && galones.None? && precioTotal.None? && pagado && notas == []
    }

    /** The form's fields together. */
    function Formulario(): (Option<Cliente>, Option<real>, Option<real>, bool, string)
      reads this
    {
      (clienteSeleccionado, galones, precioTotal, pagado, notas)
    }

    constructor (app: AppProvider)
      ensures this.app == app
      ensures FormularioVacio() && !loading && ventaEditando.None? && !isEditDialogOpen
    {
      this.app := app;
      clienteSeleccionado, galones, precioTotal, pagado, notas := None, None, None, true, [];
      loading := false;
      ventaEditando, isEditDialogOpen := None, false;
    }

    /** `resetForm`: back to the defaults; nothing else changes. */
    method ResetForm()
      modifies this`clienteSeleccionado, this`galones, this`precioTotal, this`pagado, this`notas
      ensures FormularioVacio()
    {
      clienteSeleccionado, galones, precioTotal, pagado, notas := None, None, None, true, [];
    }

    /** `onClienteSelected`: record the pick and, for a client, prefill gallons, price and the paid switch. */
    method OnClienteSelected(cliente: Option<Cliente>)
      modifies this`clienteSeleccionado, this`galones, this`precioTotal, this`pagado
      ensures clienteSeleccionado == cliente
      ensures cliente.None? ==> galones == old(galones) && precioTotal == old(precioTotal) && pagado == old(pagado)
      ensures cliente.Some? ==>
        && galones == Some(cliente.value.capacidadGalones)
        && precioTotal == Some(PrecioSugerido(cliente.value.tipoCliente))
        && pagado == PagadoSugerido(cliente.value.tipoCliente)
    {
      clienteSeleccionado := cliente;
      if cliente.Some? {
        galones := Some(cliente.value.capacidadGalones);
        precioTotal := Some(PrecioSugerido(cliente.value.tipoCliente));
        pagado := PagadoSugerido(cliente.value.tipoCliente);
      }
    }

    /**
     * The saving half of `handleSubmit`, with `loading` on while it runs: pass the sale to
     * `agregarVenta` (with the fresh id and time given here) and reset the form only when that
     * succeeds.
     */
    method Registrar(datos: DatosVenta, id: string, fecha: string) returns (ok: bool)
      modifies this`clienteSeleccionado, this`galones, this`precioTotal, this`pagado, this`notas, this`loading
      modifies app`ventas, app.store`ventas
      ensures !loading
      ensures old(app.trabajadorActual).None? ==>
        && !ok && Formulario() == old(Formulario()) && app.ventas == old(app.ventas) && app.store.ventas == old(app.store.ventas)
      ensures old(app.trabajadorActual).Some? ==>
        var nueva := NuevaVenta(datos, id, fecha, old(app.trabajadorActual).value.id);
        && ok == app.store.escribible
        && app.store.ventas == (if ok then Upsert(old(app.store.ventas), nueva, VentaId) else old(app.store.ventas))
        && app.ventas == (if ok then old(app.ventas) + [nueva] else old(app.ventas))
        && (if ok then FormularioVacio() else Formulario() == old(Formulario()))
    {
      loading := true;
      ok := app.AgregarVenta(datos, id, fecha);
      if ok {
        ResetForm();
      }
      loading := false;
    }

    /** `handleSubmit`: a refused form changes nothing; an accepted one is saved as `Registrar` says. */
    method HandleSubmit(id: string, fecha: string) returns (r: Result<bool, ErrorVenta>)
      modifies this`clienteSeleccionado, this`galones, this`precioTotal, this`pagado, this`notas, this`loading
      modifies app`ventas, app.store`ventas
      ensures var v := old(ValidarVenta(app.trabajadorActual.Some?, clienteSeleccionado, galones, precioTotal, pagado, notas));
        v.Err? ==>
          && r == Err(v.error) && Formulario() == old(Formulario()) && loading == old(loading)
          && app.ventas == old(app.ventas) && app.store.ventas == old(app.store.ventas)
      ensures var v := old(ValidarVenta(app.trabajadorActual.Some?, clienteSeleccionado, galones, precioTotal, pagado, notas));
        v.Ok? ==>
          var nueva := NuevaVenta(v.value, id, fecha, app.trabajadorActual.value.id);
          && r == Ok(app.store.escribible)
          && app.store.ventas == (if r.value then Upsert(old(app.store.ventas), nueva, VentaId) else old(app.store.ventas))
          && app.ventas == (if r.value then old(app.ventas) + [nueva] else old(app.ventas))
          && (if r.value then FormularioVacio() else Formulario() == old(Formulario()))
          && !loading
    {
      var v := ValidarVenta(app.trabajadorActual.Some?, clienteSeleccionado, galones, precioTotal, pagado, notas);
      if v.Err? {
        return Err(v.error);
      }
      var ok := Registrar(v.value, id, fecha);
      r := Ok(ok);
    }

    /** `handleEditVenta`: open the edit dialog on a sale. */
    method HandleEditVenta(venta: Venta)
      modifies this`ventaEditando, this`isEditDialogOpen
      ensures ventaEditando == Some(venta) && isEditDialogOpen
    {
      ventaEditando := Some(venta);
      isEditDialogOpen := true;
    }

    /** `handleUpdateVenta`: save the edited sale; the dialog closes only when that succeeds. */
    method HandleUpdateVenta(ventaActualizada: Venta) returns (ok: bool)
      modifies this`ventaEditando, this`isEditDialogOpen, app`ventas, app.store`ventas
      ensures ok == app.store.escribible
      ensures app.store.ventas == if ok then Upsert(old(app.store.ventas), ventaActualizada, VentaId) else old(app.store.ventas)
      ensures app.ventas == if ok then ReplaceAll(old(app.ventas), ventaActualizada, VentaId) else old(app.ventas)
      ensures ok ==> ventaEditando.None? && !isEditDialogOpen
      ensures !ok ==> ventaEditando == old(ventaEditando) && isEditDialogOpen == old(isEditDialogOpen)
    {
      ok := app.ActualizarVenta(ventaActualizada);
      if ok {
        isEditDialogOpen := false;
        ventaEditando := None;
      }
    }

    /** `handleDeleteVenta`: delete only after the user confirms. */
    method HandleDeleteVenta(ventaId: string, confirmado: bool) returns (ok: bool)
      modifies app`ventas, app.store`ventas
      ensures !confirmado ==> !ok && app.ventas == old(app.ventas) && app.store.ventas == old(app.store.ventas)
      ensures confirmado ==>
        && ok == app.store.escribible
        && app.store.ventas == (if ok then RemoveId(old(app.store.ventas), ventaId, VentaId) else old(app.store.ventas))
        && app.ventas == (if ok then RemoveId(old(app.ventas), ventaId, VentaId) else old(app.ventas))
    {
      ok := false;
      if confirmado {
        ok := app.EliminarVenta(ventaId);
      }
    }
  }
}
