/**
 * The client picker of src/components/ClienteSearcher.tsx: a search box whose term drives a result
 * list, a dropdown, and a highlighted row moved by the arrow keys with wrap-around. The state kept
 * here is the state once the search effect has run after a change of term.
 */
module ClienteSearcher {
  import opened Wrappers
  import opened Text
  import opened Records
  import opened Types
  import opened AppContext

  /** The keys the handler distinguishes; every other key is `Otra`. */
  datatype Tecla = ArrowDown | ArrowUp | Enter | Escape | Otra

  /** ArrowDown: the next row, or the first after the last one (and from no row at all). */
  function Siguiente(i: int, n: int): (r: int)
    requires -1 <= i < n && n > 0
    ensures 0 <= r < n
    ensures i < n - 1 ==> r == i + 1
    ensures i >= n - 1 ==> r == 0
  {
    if i < n - 1 then i + 1 else 0
  }

  /** ArrowUp: the previous row, or the last from the first row (and from no row at all). */
  function Anterior(i: int, n: int): (r: int)
    requires -1 <= i < n && n > 0
    ensures 0 <= r < n
    ensures i > 0 ==> r == i - 1
    ensures i <= 0 ==> r == n - 1
  {
    if i > 0 then i - 1 else n - 1
  }

  /** On a highlighted row, the two arrows undo each other. */
  lemma ArrowsInverse(i: int, n: int)
    requires 0 <= i < n
    ensures Anterior(Siguiente(i, n), n) == i
    ensures Siguiente(Anterior(i, n), n) == i
  {
  }

  /** The text put in the box once a client is picked: "nombre - placa". */
  function Etiqueta(c: Cliente): (r: string)
    ensures |r| == |c.nombre| + 3 + |c.placa|
    ensures r[..|c.nombre|] == c.nombre && r[|c.nombre|..|c.nombre| + 3] == " - " && r[|c.nombre| + 3..] == c.placa
  {
    c.nombre + " - " + c.placa
  }

  /** What the search effect lists for a term: nothing for a blank term, otherwise the client search. */
  function Resultados(clientes: seq<Cliente>, termino: string): (r: seq<Cliente>)
    ensures AllSpace(termino) ==> r == []
    ensures !AllSpace(termino) ==> r == BuscarClientes(clientes, termino)
  {
    if Trim(termino) != [] then BuscarClientes(clientes, termino) else []
  }

  /** A text longer than another is not inside it. */
  lemma LongerNotContained(h: string, n: string)
    requires |n| > |h|
    ensures !Contains(h, n)
  {
  }

  /** A client's own label is longer than its name and its plate, so it never finds that client. */
  lemma EtiquetaMissesOwnClient(c: Cliente)
    ensures Resultados([c], Etiqueta(c)) == []
  {
    var t := Etiqueta(c);
    assert t[|c.nombre| + 1] == '-';
    assert !IsSpace(t[|c.nombre| + 1]);
    LongerNotContained(Lower(c.nombre), Lower(t));
    LongerNotContained(Lower(c.placa), Lower(t));
    assert !Coincide(c, Lower(t));
    assert Filter([c], CoincideCon(Lower(t))) == [];
  }

  class ClienteSearcher {
    const app: AppProvider
    var searchTerm: string
    var isOpen: bool
    var resultados: seq<Cliente>
    var highlightedIndex: int
    /** The last client handed to `onClienteSelected` (null as `None`). */
    var seleccionado: Option<Cliente>

    /** The highlight is on a row or on none, and an open dropdown has rows. */
    predicate Valid()
      reads this
    {
      -1 <= highlightedIndex < |resultados| && (isOpen ==> resultados != [])
    }

    constructor (app: AppProvider)
      ensures this.app == app && Valid()
      ensures searchTerm == [] && !isOpen && resultados == [] && highlightedIndex == -1 && seleccionado.None?
    {
      this.app := app;
      searchTerm, isOpen, resultados, highlightedIndex := [], false, [], -1;
      seleccionado := None;
    }

    /** Show a list of results: open iff there are any, no highlight. */
    method MostrarResultados(encontrados: seq<Cliente>)
      modifies this`resultados, this`isOpen, this`highlightedIndex
      ensures Valid()
      ensures resultados == encontrados
      ensures isOpen <==> resultados != []
      ensures highlightedIndex == -1
    {
      resultados, isOpen, highlightedIndex := encontrados, encontrados != [], -1;
    }

    /**
     * One run of the search effect: list the results for the current term, open iff there are
     * any, no highlight. It runs after a change of term and again after every re-render of the
     * provider, whose `buscarClientes` is a new closure each time.
     */
    method EfectoBusqueda()
      modifies this`resultados, this`isOpen, this`highlightedIndex
      ensures Valid()
      ensures resultados == Resultados(app.clientes, searchTerm)
      ensures isOpen <==> resultados != []
      ensures highlightedIndex == -1
    {
      MostrarResultados(Resultados(app.clientes, searchTerm));
    }

    /** Typing: a new term reruns the search effect; the same term changes nothing. */
    method SetSearchTerm(termino: string)
      modifies this`searchTerm, this`resultados, this`isOpen, this`highlightedIndex
      requires Valid()
      ensures Valid() && searchTerm == termino
      ensures termino != old(searchTerm) ==>
        resultados == Resultados(app.clientes, termino) && (isOpen <==> resultados != []) && highlightedIndex == -1
      ensures termino == old(searchTerm) ==>
        resultados == old(resultados) && isOpen == old(isOpen) && highlightedIndex == old(highlightedIndex)
    {
      var cambia := termino != searchTerm;
      searchTerm := termino;
      if cambia {
        EfectoBusqueda();
      }
    }

    /**
     * `handleSelectCliente`: look the client up with its gallons; if found, hand it on, put its
     * label in the box and close the dropdown. The new label then reruns the search effect, which
     * reopens the dropdown only if the label itself finds clients.
     */
    method HandleSelectCliente(cliente: Cliente)
      modifies this`seleccionado, this`searchTerm, this`resultados, this`isOpen, this`highlightedIndex
      requires Valid()
      ensures Valid()
      ensures app.GetClienteConGalones(cliente.id).None? ==>
        && seleccionado == old(seleccionado) && searchTerm == old(searchTerm) && resultados == old(resultados)
        && isOpen == old(isOpen) && highlightedIndex == old(highlightedIndex)
      ensures app.GetClienteConGalones(cliente.id).Some? ==>
        && seleccionado == app.GetClienteConGalones(cliente.id)
        && searchTerm == Etiqueta(cliente)
        && highlightedIndex == -1
        && (if Etiqueta(cliente) != old(searchTerm)
            then resultados == Resultados(app.clientes, Etiqueta(cliente)) && (isOpen <==> resultados != [])
            else resultados == old(resultados) && !isOpen)
    {
      var conGalones := app.GetClienteConGalones(cliente.id);
      if conGalones.Some? {
        seleccionado := conGalones;
        var etiqueta := Etiqueta(cliente);
        var cambia := etiqueta != searchTerm;
        searchTerm := etiqueta;
        isOpen := false;
        highlightedIndex := -1;
        if cambia {
          EfectoBusqueda();
        }
      }
    }

    /** `handleKeyDown`: ignored while closed or empty; arrows wrap, Enter picks the highlighted row, Escape closes. */
    method HandleKeyDown(tecla: Tecla)
      modifies this`seleccionado, this`searchTerm, this`resultados, this`isOpen, this`highlightedIndex
      requires Valid()
      ensures Valid()
      ensures !old(isOpen) || old(resultados) == [] ==>
        && seleccionado == old(seleccionado) && searchTerm == old(searchTerm) && resultados == old(resultados)
        && isOpen == old(isOpen) && highlightedIndex == old(highlightedIndex)
      ensures old(isOpen) && tecla == ArrowDown ==>
        && highlightedIndex == Siguiente(old(highlightedIndex), |old(resultados)|) && resultados == old(resultados) && isOpen
        && searchTerm == old(searchTerm) && seleccionado == old(seleccionado)
      ensures old(isOpen) && tecla == ArrowUp ==>
        && highlightedIndex == Anterior(old(highlightedIndex), |old(resultados)|) && resultados == old(resultados) && isOpen
        && searchTerm == old(searchTerm) && seleccionado == old(seleccionado)
      ensures old(isOpen) && tecla == Escape ==>
        && !isOpen && highlightedIndex == -1 && resultados == old(resultados) && searchTerm == old(searchTerm)
        && seleccionado == old(seleccionado)
      ensures old(isOpen) && tecla == Enter && old(highlightedIndex) == -1 ==>
        && seleccionado == old(seleccionado) && searchTerm == old(searchTerm) && resultados == old(resultados)
        && isOpen && highlightedIndex == -1
      ensures old(isOpen) && tecla == Enter && old(highlightedIndex) >= 0 ==>
        var c := old(resultados)[old(highlightedIndex)];
        && (app.GetClienteConGalones(c.id).None? ==>
              && seleccionado == old(seleccionado) && searchTerm == old(searchTerm) && resultados == old(resultados)
              && isOpen == old(isOpen) && highlightedIndex == old(highlightedIndex))
        && (app.GetClienteConGalones(c.id).Some? ==>
              && seleccionado == app.GetClienteConGalones(c.id)
              && searchTerm == Etiqueta(c)
              && highlightedIndex == -1
              && (if Etiqueta(c) != old(searchTerm)
                  then resultados == Resultados(app.clientes, Etiqueta(c)) && (isOpen <==> resultados != [])
                  else resultados == old(resultados) && !isOpen))
      ensures tecla == Otra ==>
        && seleccionado == old(seleccionado) && searchTerm == old(searchTerm) && resultados == old(resultados)
        && isOpen == old(isOpen) && highlightedIndex == old(highlightedIndex)
    {
      if !isOpen || |resultados| == 0 {
        return;
      }
      match tecla
      case ArrowDown =>
        highlightedIndex := Siguiente(highlightedIndex, |resultados|);
      case ArrowUp =>
        highlightedIndex := Anterior(highlightedIndex, |resultados|);
      case Enter =>
        if highlightedIndex >= 0 && highlightedIndex < |resultados| {
          HandleSelectCliente(resultados[highlightedIndex]);
        }
      case Escape =>
        isOpen := false;
        highlightedIndex := -1;
      case Otra =>
    }

    /** `handleClearSelection`: empty the box, hand on null, close. */
    method HandleClearSelection()
      modifies this`seleccionado, this`searchTerm, this`resultados, this`isOpen, this`highlightedIndex
      requires Valid()
      ensures Valid()
      ensures searchTerm == [] && seleccionado.None? && !isOpen && highlightedIndex == -1
      ensures resultados == if old(searchTerm) != [] then [] else old(resultados)
    {
      var cambia := searchTerm != [];
      searchTerm := [];
      seleccionado := None;
      isOpen := false;
      highlightedIndex := -1;
      if cambia {
        EfectoBusqueda();
      }
    }

    /** A mouse press outside the component closes the dropdown. */
    method ClickOutside()
      modifies this`isOpen
      requires Valid()
      ensures Valid() && !isOpen
    {
      isOpen := false;
    }
  }
}
