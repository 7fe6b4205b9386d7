/** The quotation record the front end receives from the API and the shape the
    printable A4 view expects: the same record with a nested `cliente` object
    built from its four cliente_* fields (ListadoCotizaciones.jsx handleVerPdf,
    and the same remap in CrearCotizacion.jsx handleSubmit). */
module QuoteView {
  import opened Wrappers

  /** The JSON fields the pages read; a field the response lacks is None. */
  datatype ApiQuotation = ApiQuotation(
    id: int,
    numero: int,
    fecha: string,
    clienteNombre: Option<string>,
    clienteEmpresa: Option<string>,
    clienteEmail: Option<string>,
    clienteTelefono: Option<string>,
    asunto: Option<string>,
    total: real)

  datatype Contact = Contact(
    nombre: Option<string>,
    empresa: Option<string>,
    email: Option<string>,
    telefono: Option<string>)

  /** `{...data, cliente: {...}}`: every field of data, plus the nested client. */
  datatype ViewQuotation = ViewQuotation(quote: ApiQuotation, cliente: Contact)

  function ContactOf(q: ApiQuotation): Contact {
    Contact(q.clienteNombre, q.clienteEmpresa, q.clienteEmail, q.clienteTelefono)
  }

  /** A view record whose nested client agrees with its flat cliente_* fields. */
  predicate Consistent(v: ViewQuotation) {
    v.cliente.nombre == v.quote.clienteNombre
    && v.cliente.empresa == v.quote.clienteEmpresa
    && v.cliente.email == v.quote.clienteEmail
    && v.cliente.telefono == v.quote.clienteTelefono
  }

  /** The remap: keeps the record and nests its client fields. */
  function ForView(q: ApiQuotation): (v: ViewQuotation)
    ensures v.quote == q && Consistent(v)
  {
    ViewQuotation(q, ContactOf(q))
  }

  /** The remap is the only consistent view of a record. */
  lemma ForViewUnique(q: ApiQuotation, v: ViewQuotation)
    requires v.quote == q && Consistent(v)
    ensures v == ForView(q)
  {
  }
}
