/**
 * The client-management page of src/app/clientes/page.tsx: the ordered validation with its
 * duplicate-plate check for new clients, name and plate normalisation, the edit merge, the dialog
 * form and the capacity figures.
 */
module ClientesPage {
  import opened Wrappers
  import opened Text
  import opened Records
  import opened Types
  import opened Totals
  import opened AppContext

  /** Why a submitted client is refused, in the order the checks run. */
  datatype ErrorCliente = NombreVacio | PlacaVacia | CapacidadInvalida | PlacaDuplicada

  /** `clientes.some(c => c.placa.toLowerCase() === placa.trim().toLowerCase())`. */
  predicate PlacaExiste(clientes: seq<Cliente>, placa: string) {
    exists i :: 0 <= i < |clientes| && Lower(clientes[i].placa) == Lower(Trim(placa))
  }

  /**
   * `handleSubmit`'s checks, in order, and the normalised data saved on success. The duplicate-plate
   * check runs only for a new client.
   */
  function ValidarCliente(clientes: seq<Cliente>, editando: bool, nombre: string, placa: string, capacidad: Option<real>, tipo: TipoCliente): (r: Result<DatosCliente, ErrorCliente>)
    ensures r == Err(NombreVacio) <==> AllSpace(nombre)
    ensures r == Err(PlacaVacia) <==> !AllSpace(nombre) && AllSpace(placa)
    ensures r == Err(CapacidadInvalida) <==> !AllSpace(nombre) && !AllSpace(placa) && !(capacidad.Some? && capacidad.value > 0.0)
    ensures r == Err(PlacaDuplicada) <==>
      !AllSpace(nombre) && !AllSpace(placa) && capacidad.Some? && capacidad.value > 0.0 && !editando && PlacaExiste(clientes, placa)
    ensures r.Ok? ==>
      && r.value.nombre == Trim(nombre) && r.value.nombre != []
      && r.value.placa == Upper(Trim(placa)) && r.value.placa != []
      && capacidad.Some? && r.value.capacidadGalones == capacidad.value && r.value.capacidadGalones > 0.0
      && r.value.tipoCliente == tipo
  {
    if Trim(nombre) == [] then Err(NombreVacio)
    else if Trim(placa) == [] then Err(PlacaVacia)
    else if !(capacidad.Some? && capacidad.value > 0.0) then Err(CapacidadInvalida)
    else if !editando && PlacaExiste(clientes, placa) then Err(PlacaDuplicada)
    else Ok(DatosCliente(Trim(nombre), Upper(Trim(placa)), capacidad.value, tipo))
  }

  /**
   * A plate saved through the form cannot be entered again for a new client, whatever the case of
   * its letters or the white space around it.
   */
  lemma SavedPlateIsDuplicate(clientes: seq<Cliente>, k: int, placaGuardada: string, placaNueva: string)
    requires 0 <= k < |clientes| && clientes[k].placa == Upper(Trim(placaGuardada))
    requires Lower(Trim(placaNueva)) == Lower(Trim(placaGuardada))
    ensures PlacaExiste(clientes, placaNueva)
  {
    LowerUpper(Trim(placaGuardada));
  }

  /** `{...clienteEditando, ...clienteData}`: the form overwrites the editable fields, the rest is kept. */
  function Fusionar(editando: Cliente, datos: DatosCliente): (c: Cliente)
    ensures c.id == editando.id && c.fechaRegistro == editando.fechaRegistro && c.totalGalones == editando.totalGalones
    ensures c.nombre == datos.nombre && c.placa == datos.placa && c.capacidadGalones == datos.capacidadGalones
    ensures c.tipoCliente == Some(datos.tipoCliente)
  {
    editando.(nombre := datos.nombre, placa := datos.placa, capacidadGalones := datos.capacidadGalones, tipoCliente := Some(datos.tipoCliente))
  }

  /** The client type the edit dialog shows: `cliente.tipoCliente || 'corriente'`. */
  function TipoMostrado(tipo: Option<TipoCliente>): (t: TipoCliente)
    ensures tipo.Some? ==> t == tipo.value
    ensures tipo.None? ==> t == Corriente
  {
    if tipo.Some? then tipo.value else Corriente
  }

  /**
   * Editing a well-formed client and saving without changes passes validation and gives back the
   * same client.
   */
  lemma EditUntouchedKeepsCliente(clientes: seq<Cliente>, c: Cliente)
    requires c.nombre == Trim(c.nombre) && c.nombre != []
    requires Trim(c.placa) != [] && c.placa == Upper(Trim(c.placa))
    requires c.capacidadGalones > 0.0 && c.tipoCliente.Some?
    ensures var r := ValidarCliente(clientes, true, c.nombre, c.placa, Some(c.capacidadGalones), TipoMostrado(c.tipoCliente));
      r.Ok? && Fusionar(c, r.value) == c
  {
    var datos := DatosCliente(c.nombre, c.placa, c.capacidadGalones, c.tipoCliente.value);
    assert ValidarCliente(clientes, true, c.nombre, c.placa, Some(c.capacidadGalones), TipoMostrado(c.tipoCliente)) == Ok(datos);
  }

  /** `clientesFiltrados`: the search result for a non-blank term, otherwise every client. */
  function ClientesFiltrados(clientes: seq<Cliente>, searchTerm: string): (r: seq<Cliente>)
    ensures r == BuscarClientes(clientes, searchTerm)
  {
    if Trim(searchTerm) != [] then BuscarClientes(clientes, searchTerm) else clientes
  }

  function Capacidad(c: Cliente): real { c.capacidadGalones }

  /** The total capacity card: the sum of every client's capacity. */
  function CapacidadTotal(clientes: seq<Cliente>): real {
    Sum(clientes, Capacidad)
  }

  /** Registering a client adds exactly its capacity to the total. */
  lemma CapacidadTotalAfterAdd(clientes: seq<Cliente>, c: Cliente)
    ensures CapacidadTotal(clientes + [c]) == CapacidadTotal(clientes) + c.capacidadGalones
  {
    SumAppend(clientes, [c], Capacidad);
    assert Sum([c], Capacidad) == c.capacidadGalones;
  }

  /** With every capacity positive, the total is positive unless there are no clients. */
  lemma CapacidadTotalPositive(clientes: seq<Cliente>)
    requires forall i :: 0 <= i < |clientes| ==> clientes[i].capacidadGalones > 0.0
    ensures clientes == [] ==> CapacidadTotal(clientes) == 0.0
    ensures clientes != [] ==> CapacidadTotal(clientes) > 0.0
  {
    if clientes != [] {
      SumPositive(clientes, Capacidad);
    }
  }

  /** The average capacity card: the rounded mean, or 0 with no clients. */
  function CapacidadPromedio(clientes: seq<Cliente>): (r: int)
    ensures clientes == [] ==> r == 0
    ensures clientes != [] ==> r as real - 0.5 <= CapacidadTotal(clientes) / |clientes| as real < r as real + 0.5
  {
    PromedioRedondeado(CapacidadTotal(clientes), |clientes|)
  }

  /** The page's dialog and form state, over the provider it saves to. */
  class ClientesPage {
    const app: AppProvider
    var isDialogOpen: bool
    var clienteEditando: Option<Cliente>
    var searchTerm: string
    var nombre: string
    var placa: string
    var capacidadGalones: Option<real>
    var tipoCliente: TipoCliente
    var loading: bool

    /** The form's defaults: empty fields, type corriente, no client being edited. */
    predicate FormularioVacio()
      reads this`nombre, this`placa, this`capacidadGalones, this`tipoCliente, this`clienteEditando
    {
      nombre == [] && placa == [] && capacidadGalones.None? && tipoCliente == Corriente && clienteEditando.None?
    }

    /** The form's fields together. */
    function Formulario(): (Option<Cliente>, string, string, Option<real>, TipoCliente)
      reads this`nombre, this`placa, this`capacidadGalones, this`tipoCliente, this`clienteEditando
    {
      (clienteEditando, nombre, placa, capacidadGalones, tipoCliente)
    }

    constructor (app: AppProvider)
      ensures this.app == app
      ensures FormularioVacio() && !isDialogOpen && searchTerm == [] && !loading
    {
      this.app := app;
      isDialogOpen := false;
      clienteEditando := None;
      searchTerm := [];
      nombre, placa, capacidadGalones, tipoCliente := [], [], None, Corriente;
      loading := false;
    }

    /** `resetForm`. */
    method ResetForm()
      modifies this`nombre, this`placa, this`capacidadGalones, this`tipoCliente, this`clienteEditando
      ensures FormularioVacio()
    {
      nombre, placa, capacidadGalones, tipoCliente := [], [], None, Corriente;
      clienteEditando := None;
    }

    /** `handleOpenDialog`: for a client, copy its fields (a missing type shows as corriente); otherwise reset. */
    method HandleOpenDialog(cliente: Option<Cliente>)
      modifies this`nombre, this`placa, this`capacidadGalones, this`tipoCliente, this`clienteEditando, this`isDialogOpen
      ensures isDialogOpen
      ensures cliente.None? ==> FormularioVacio()
      ensures cliente.Some? ==>
        && clienteEditando == cliente && nombre == cliente.value.nombre && placa == cliente.value.placa
        && capacidadGalones == Some(cliente.value.capacidadGalones) && tipoCliente == TipoMostrado(cliente.value.tipoCliente)
    {
      if cliente.Some? {
        clienteEditando := cliente;
        nombre := cliente.value.nombre;
        placa := cliente.value.placa;
        capacidadGalones := Some(cliente.value.capacidadGalones);
        tipoCliente := TipoMostrado(cliente.value.tipoCliente);
      } else {
        ResetForm();
      }
      isDialogOpen := true;
    }

    /** `handleCloseDialog`: close and reset. */
    method HandleCloseDialog()
      modifies this`nombre, this`placa, this`capacidadGalones, this`tipoCliente, this`clienteEditando, this`isDialogOpen
      ensures !isDialogOpen && FormularioVacio()
    {
      isDialogOpen := false;
      ResetForm();
    }

    /** The client a save sends: the merge for an edit, a fresh record for a new client. */
    function Guardado(datos: DatosCliente, id: string, fechaRegistro: string): Cliente
      reads this`clienteEditando
    {
      if clienteEditando.Some? then Fusionar(clienteEditando.value, datos) else NuevoCliente(datos, id, fechaRegistro)
    }

    /**
     * The saving half of `handleSubmit`, with `loading` on while it runs: update the client being
     * edited or add a new one; the dialog closes and the form resets only when the save succeeds.
     */
    method Guardar(datos: DatosCliente, id: string, fechaRegistro: string) returns (ok: bool)
      modifies this`nombre, this`placa, this`capacidadGalones, this`tipoCliente, this`clienteEditando, this`isDialogOpen
      modifies this`loading, app`clientes, app.store`clientes
      ensures !loading
      ensures var guardado := old(Guardado(datos, id, fechaRegistro));
        && ok == app.store.escribible
        && app.store.clientes == (if ok then Upsert(old(app.store.clientes), guardado, ClienteId) else old(app.store.clientes))
        && app.clientes == (if !ok then old(app.clientes)
                            else if old(clienteEditando).Some? then ReplaceAll(old(app.clientes), guardado, ClienteId)
                            else old(app.clientes) + [guardado])
      ensures if ok then !isDialogOpen && FormularioVacio() else Formulario() == old(Formulario()) && isDialogOpen == old(isDialogOpen)
    {
      loading := true;
      if clienteEditando.Some? {
        ok := app.ActualizarCliente(Fusionar(clienteEditando.value, datos));
      } else {
        ok := app.AgregarCliente(datos, id, fechaRegistro);
      }
      if ok {
        HandleCloseDialog();
      }
      loading := false;
    }

    /**
     * `handleSubmit`: a refused form changes nothing; an accepted one is saved as `Guardar` says.
     */
    method HandleSubmit(id: string, fechaRegistro: string) returns (r: Result<bool, ErrorCliente>)
      modifies this`nombre, this`placa, this`capacidadGalones, this`tipoCliente, this`clienteEditando, this`isDialogOpen
      modifies this`loading, app`clientes, app.store`clientes
      ensures var v := old(ValidarCliente(app.clientes, clienteEditando.Some?, nombre, placa, capacidadGalones, tipoCliente));
        v.Err? ==>
          && r == Err(v.error) && Formulario() == old(Formulario()) && isDialogOpen == old(isDialogOpen) && loading == old(loading)
          && app.clientes == old(app.clientes) && app.store.clientes == old(app.store.clientes)
      ensures var v := old(ValidarCliente(app.clientes, clienteEditando.Some?, nombre, placa, capacidadGalones, tipoCliente));
        v.Ok? ==>
          var guardado := old(Guardado(v.value, id, fechaRegistro));
          && r == Ok(app.store.escribible)
          && app.store.clientes == (if r.value then Upsert(old(app.store.clientes), guardado, ClienteId) else old(app.store.clientes))
          && app.clientes == (if !r.value then old(app.clientes)
                              else if old(clienteEditando).Some? then ReplaceAll(old(app.clientes), guardado, ClienteId)
                              else old(app.clientes) + [guardado])
          && (if r.value then !isDialogOpen && FormularioVacio() else Formulario() == old(Formulario()) && isDialogOpen == old(isDialogOpen))
          && !loading
    {
      var v := ValidarCliente(app.clientes, clienteEditando.Some?, nombre, placa, capacidadGalones, tipoCliente);
      if v.Err? {
        return Err(v.error);
      }
      var ok := Guardar(v.value, id, fechaRegistro);
      r := Ok(ok);
    }

    /** `handleDeleteCliente`: delete only after the user confirms. */
    method HandleDeleteCliente(cliente: Cliente, confirmado: bool) returns (ok: bool)
      modifies app`clientes, app.store`clientes
      ensures !confirmado ==> !ok && app.clientes == old(app.clientes) && app.store.clientes == old(app.store.clientes)
      ensures confirmado ==>
        && ok == app.store.escribible
        && app.store.clientes == (if ok then RemoveId(old(app.store.clientes), cliente.id, ClienteId) else old(app.store.clientes))
        && app.clientes == (if ok then RemoveId(old(app.clientes), cliente.id, ClienteId) else old(app.clientes))
    {
      ok := false;
      if confirmado {
        ok := app.EliminarCliente(cliente.id);
      }
    }
  }
}
