/** The client listing page (ListadoClientes.jsx): the fetched client records
    shown ten to a page, with "N/A" for a client without a company. */
module ClientList {
  import opened Wrappers
  import opened Text
  import opened Paging

  /** A client record as this page reads it (the fields of the Cliente table). */
  datatype ClientRecord = ClientRecord(
    id: int,
    empresa: Option<string>,
    nombreContacto: Option<string>,
    email: Option<string>,
    telefono: Option<string>)

  /** The company column: `cliente.empresa || "N/A"`. */
  function EmpresaCell(c: ClientRecord): (s: string)
    ensures s != ""
    ensures Truthy(c.empresa) ==> s == c.empresa.value
    ensures !Truthy(c.empresa) ==> s == "N/A"
  {
    if Truthy(c.empresa) then c.empresa.value else "N/A"
  }

  /** The state of the ListadoClientes component. */
  class ClientListPage {
    var clientes: seq<ClientRecord>
    var loading: bool
    var error: Option<string>
    var currentPage: int

    constructor ()
      ensures clientes == [] && loading && error == None && currentPage == 1
    {
      clientes, loading, error, currentPage := [], true, None, 1;
    }

    /** The rows of the current page. */
    function CurrentRows(): (r: seq<ClientRecord>)
      reads this
      ensures |r| <= ItemsPerPage
    {
      PageSize(clientes, currentPage);
      CurrentItems(clientes, currentPage)
    }

    /** The loading text, else the error text, else the table. */
    function Screen(): (v: Screen)
      reads this
      ensures v == Table <==> !loading && !Truthy(error)
    {
      SelectScreen(loading, error)
    }

    /** fetchClientes after the request: the list or the error message; the
        loading text goes away either way. */
    method FetchFinished(result: Result<seq<ClientRecord>, string>)
      modifies this`clientes, this`error, this`loading
      ensures !loading
      ensures result.Success? ==> clientes == result.value && error == old(error)
      ensures result.Failure? ==> error == Some(result.error) && clientes == old(clientes)
    {
      if result.Success? {
        clientes := result.value;
      } else {
        error := Some(result.error);
      }
      loading := false;
    }

    /** paginate: the page number of the button, taken as it is. */
    method Paginate(pageNumber: int)
      modifies this`currentPage
      ensures currentPage == pageNumber
    {
      currentPage := pageNumber;
    }
  }
}
