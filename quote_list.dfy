/** The quotation listing page (ListadoCotizaciones.jsx): the fetched list, its
    pagination, deletion after confirmation, and the modal that loads one
    quotation and shows it in the printable view. */
module QuoteList {
  import opened Wrappers
  import opened Seqs
  import opened Text
  import opened Paging
  import QuoteView

  /** The test `(cot) => cot.id !== cotizacionId`. */
  function NotId(id: int): QuoteView.ApiQuotation -> bool {
    (c: QuoteView.ApiQuotation) => c.id != id
  }

  /** `cotizaciones.filter((cot) => cot.id !== cotizacionId)` */
  function WithoutQuote(cots: seq<QuoteView.ApiQuotation>, id: int): (r: seq<QuoteView.ApiQuotation>)
    ensures forall i :: 0 <= i < |r| ==> r[i].id != id && r[i] in cots
    ensures forall i :: 0 <= i < |cots| && cots[i].id != id ==> cots[i] in r
  {
    FilterMembers(cots, NotId(id));
    Filter(cots, NotId(id))
  }

  /** Deleting the quotation at position k (ids are primary keys, so distinct)
      drops that one row and keeps the others in order. */
  lemma WithoutQuoteDropsOne(cots: seq<QuoteView.ApiQuotation>, k: nat)
    requires k < |cots|
    requires forall i, j :: 0 <= i < j < |cots| ==> cots[i].id != cots[j].id
    ensures WithoutQuote(cots, cots[k].id) == cots[..k] + cots[k + 1..]
  {
    FilterDropsOne(cots, NotId(cots[k].id), k);
  }

  /** The client column: `cot.cliente_empresa || cot.cliente_nombre`. */
  function ClientCell(cot: QuoteView.ApiQuotation): (r: Option<string>)
    ensures Truthy(cot.clienteEmpresa) ==> r == cot.clienteEmpresa
    ensures !Truthy(cot.clienteEmpresa) ==> r == cot.clienteNombre
  {
    if Truthy(cot.clienteEmpresa) then cot.clienteEmpresa else cot.clienteNombre
  }

  /** What the modal area shows. */
  datatype Modal = Closed | LoadingQuote | Showing(v: QuoteView.ViewQuotation) | Blank

  /** The state of the ListadoCotizaciones component. */
  class QuoteListPage {
    var cotizaciones: seq<QuoteView.ApiQuotation>
    var loading: bool
    var error: Option<string>
    var currentPage: int
    var modalVisible: bool
    var selectedCotizacion: Option<QuoteView.ViewQuotation>
    var loadingModal: bool

    constructor ()
      ensures cotizaciones == [] && loading && error == None && currentPage == 1
      ensures !modalVisible && selectedCotizacion == None && !loadingModal
    {
      cotizaciones, loading, error, currentPage := [], true, None, 1;
      modalVisible, selectedCotizacion, loadingModal := false, None, false;
    }

    /** The rows of the current page. */
    function CurrentRows(): (r: seq<QuoteView.ApiQuotation>)
      reads this
      ensures |r| <= ItemsPerPage
    {
      PageSize(cotizaciones, currentPage);
      CurrentItems(cotizaciones, currentPage)
    }

    function Screen(): (v: Screen)
      reads this
      ensures v == Table <==> !loading && !Truthy(error)
    {
      SelectScreen(loading, error)
    }

    /** The modal: nothing when hidden, the loading text while a quotation is
        fetched, then the printable view of the selected quotation. */
    function ModalContent(): (m: Modal)
      reads this
      ensures m == Closed <==> !modalVisible
      ensures m == LoadingQuote <==> modalVisible && loadingModal
      ensures m.Showing? <==> modalVisible && !loadingModal && selectedCotizacion.Some?
      ensures m.Showing? ==> selectedCotizacion == Some(m.v)
    {
      if !modalVisible then Closed
      else if loadingModal then LoadingQuote
      else if selectedCotizacion.Some? then Showing(selectedCotizacion.value)
      else Blank
    }

    /** fetchCotizaciones after the request: the list, or the error message; the
        loading text goes away either way. */
    method FetchFinished(result: Result<seq<QuoteView.ApiQuotation>, string>)
      modifies this`cotizaciones, this`error, this`loading
      ensures !loading
      ensures result.Success? ==> cotizaciones == result.value && error == old(error)
      ensures result.Failure? ==> error == Some(result.error) && cotizaciones == old(cotizaciones)
    {
      if result.Success? {
        cotizaciones := result.value;
      } else {
        error := Some(result.error);
      }
      loading := false;
    }

    /** paginate: the page number of the button, taken as it is. */
    method Paginate(pageNumber: int)
      modifies this`currentPage
      ensures currentPage == pageNumber
    {
      currentPage := pageNumber;
    }

    /** handleEliminar: only after the user confirms and the DELETE succeeds is the
        quotation taken out of the list; the page number is left as it was. */
    method HandleEliminar(cotizacionId: int, confirmed: bool, deleted: Result<(), string>)
      modifies this`cotizaciones
      ensures confirmed && deleted.Success? ==> cotizaciones == WithoutQuote(old(cotizaciones), cotizacionId)
      ensures !(confirmed && deleted.Success?) ==> cotizaciones == old(cotizaciones)
    {
      if confirmed && deleted.Success? {
        cotizaciones := WithoutQuote(cotizaciones, cotizacionId);
      }
    }

    /** handleVerPdf before the request: the modal opens on the loading text. */
    method BeginVerPdf()
      modifies this`modalVisible, this`loadingModal, this`selectedCotizacion
      ensures modalVisible && loadingModal && selectedCotizacion == None
      ensures ModalContent() == LoadingQuote
    {
      modalVisible, loadingModal, selectedCotizacion := true, true, None;
    }

    /** handleVerPdf after the request: the record with its client nested is shown,
        or on error the modal closes. */
    method EndVerPdf(result: Result<QuoteView.ApiQuotation, string>)
      modifies this`modalVisible, this`loadingModal, this`selectedCotizacion
      ensures !loadingModal
      ensures result.Success? ==>
        selectedCotizacion == Some(QuoteView.ForView(result.value)) && modalVisible == old(modalVisible)
      ensures result.Failure? ==> !modalVisible && selectedCotizacion == old(selectedCotizacion)
    {
      if result.Success? {
        selectedCotizacion := Some(QuoteView.ForView(result.value));
      } else {
        modalVisible := false;
      }
      loadingModal := false;
    }

    /** A new quotation's id passed through the navigation state opens its modal. */
    method OpenFromNavigation(newCotizacionId: Option<int>)
      modifies this`modalVisible, this`loadingModal, this`selectedCotizacion
      ensures newCotizacionId.Some? && newCotizacionId.value != 0 ==> ModalContent() == LoadingQuote
      ensures !(newCotizacionId.Some? && newCotizacionId.value != 0) ==>
        modalVisible == old(modalVisible) && loadingModal == old(loadingModal)
        && selectedCotizacion == old(selectedCotizacion)
    {
      if newCotizacionId.Some? && newCotizacionId.value != 0 {
        BeginVerPdf();
      }
    }

    /** closeModal */
    method CloseModal()
      modifies this`modalVisible
      ensures !modalVisible && ModalContent() == Closed
    {
      modalVisible := false;
    }
  }

  /** The page number is not adjusted after a deletion: when the last page held
      a single row and that row is deleted, the current page is past the end and
      shows no rows, and with eleven rows to start with no page button is left. */
  lemma DeletingLoneLastRow(cots: seq<QuoteView.ApiQuotation>)
    requires |cots| > ItemsPerPage && |cots| % ItemsPerPage == 1
    requires forall i, j :: 0 <= i < j < |cots| ==> cots[i].id != cots[j].id
    ensures var r := WithoutQuote(cots, cots[|cots| - 1].id);
      var last := TotalPages(|cots|);
      CurrentItems(cots, last) == [cots[|cots| - 1]]
      && TotalPages(|r|) == last - 1
      && CurrentItems(r, last) == []
      && (|cots| == ItemsPerPage + 1 ==> PageButtons(|r|) == [])
  {
    var k := |cots| - 1;
    var m := |cots| / ItemsPerPage;
    assert |cots| == m * ItemsPerPage + 1;
    assert TotalPages(|cots|) == m + 1;
    assert TotalPages(k) == m;
    assert CurrentItems(cots, m + 1) == cots[k..k + 1];
    WithoutQuoteDropsOne(cots, k);
    var r := WithoutQuote(cots, cots[k].id);
    assert r == cots[..k];
    PagesInRange(r, m + 1);
  }
}
