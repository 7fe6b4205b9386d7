/** The quotation form page (CrearCotizacion.jsx): the editable item list with
    its running totals, the client search over the loaded client list, the
    de-duplication of that list, the payload sent on submit and the switch to
    the printable view. */
module QuoteForm {
  import opened Wrappers
  import opened Tax
  import opened Seqs
  import opened Text
  import QuoteView

  // ------------------------------------------------------------------ items

  /** One row of the item editor. Quantities and prices are JS numbers. */
  datatype FormItem = FormItem(id: int, cantidad: real, caracteristica: string, precioUnitario: real)

  /** The row a new item starts as. */
  function BlankItem(id: int): FormItem {
    FormItem(id, 1.0, "", 0.0)
  }

  /** `handleItemChange(id, field, value)`: the three fields an input can set. */
  datatype Edit = Cantidad(c: real) | Caracteristica(s: string) | PrecioUnitario(p: real)

  /** `{ ...item, [field]: value }` */
  function Apply(it: FormItem, e: Edit): (r: FormItem)
    ensures r.id == it.id
  {
    match e
    case Cantidad(c) => it.(cantidad := c)
    case Caracteristica(s) => it.(caracteristica := s)
    case PrecioUnitario(p) => it.(precioUnitario := p)
  }

  predicate DistinctIds(items: seq<FormItem>) {
    forall i, j :: 0 <= i < j < |items| ==> items[i].id != items[j].id
  }

  /** The importe column: cantidad × precio unitario. */
  function Line(it: FormItem): real {
    it.cantidad * it.precioUnitario
  }

  /** `items.reduce((sum, item) => sum + item.cantidad * item.precioUnitario, 0)` */
  function Subtotal(items: seq<FormItem>): real {
    if items == [] then 0.0 else Subtotal(items[..|items| - 1]) + Line(items[|items| - 1])
  }

  /** The useMemo block: subtotal, impuestos = subtotal × 0.19, total = subtotal + impuestos. */
  function FormTotals(items: seq<FormItem>): (t: Totals)
    ensures t.subtotal == Subtotal(items) && Consistent(t)
    ensures items == [] ==> t == Zero
  {
    WithIva(Subtotal(items))
  }

  lemma {:induction false} SubtotalConcat(a: seq<FormItem>, b: seq<FormItem>)
    ensures Subtotal(a + b) == Subtotal(a) + Subtotal(b)
    decreases |b|
  {
    if b == [] {
      assert a + b == a;
    } else {
      SubtotalConcat(a, b[..|b| - 1]);
      assert (a + b)[..|a + b| - 1] == a + b[..|b| - 1];
    }
  }

  lemma SubtotalSingle(x: FormItem)
    ensures Subtotal([x]) == Line(x)
  {
    assert [x][..0] == [];
  }

  /** Replacing one row changes the subtotal by the difference of the two lines. */
  lemma SubtotalUpdate(s: seq<FormItem>, k: nat, x: FormItem)
    requires k < |s|
    ensures Subtotal(s[k := x]) == Subtotal(s) - Line(s[k]) + Line(x)
  {
    assert s == s[..k] + [s[k]] + s[k + 1..];
    assert s[k := x] == s[..k] + [x] + s[k + 1..];
    SubtotalConcat(s[..k] + [s[k]], s[k + 1..]);
    SubtotalConcat(s[..k], [s[k]]);
    SubtotalConcat(s[..k] + [x], s[k + 1..]);
    SubtotalConcat(s[..k], [x]);
    SubtotalSingle(s[k]);
    SubtotalSingle(x);
  }

  /** Every row whose id matches gets the edit; the others stay as they are. */
  function ChangeItem(items: seq<FormItem>, id: int, e: Edit): (r: seq<FormItem>)
    ensures |r| == |items|
    ensures forall i :: 0 <= i < |items| ==> r[i].id == items[i].id
  {
    seq(|items|, i requires 0 <= i < |items| => if items[i].id == id then Apply(items[i], e) else items[i])
  }

  /** With distinct ids, an edit touches exactly the row that has the id, and the
      subtotal moves by the change of that row's line; an unknown id changes nothing. */
  lemma ChangeItemEffect(items: seq<FormItem>, id: int, e: Edit)
    requires DistinctIds(items)
    ensures DistinctIds(ChangeItem(items, id, e))
    ensures forall k :: 0 <= k < |items| && items[k].id == id ==>
      ChangeItem(items, id, e) == items[k := Apply(items[k], e)]
      && Subtotal(ChangeItem(items, id, e)) == Subtotal(items) - Line(items[k]) + Line(Apply(items[k], e))
    ensures (forall k :: 0 <= k < |items| ==> items[k].id != id) ==> ChangeItem(items, id, e) == items
  {
    var r := ChangeItem(items, id, e);
    forall k | 0 <= k < |items| && items[k].id == id
      ensures r == items[k := Apply(items[k], e)]
      ensures Subtotal(r) == Subtotal(items) - Line(items[k]) + Line(Apply(items[k], e))
    {
      assert r == items[k := Apply(items[k], e)];
      SubtotalUpdate(items, k, Apply(items[k], e));
    }
  }

  /** `Math.max(...items.map(i => i.id))` of a non-empty list. */
  function MaxId(items: seq<FormItem>): (m: int)
    requires items != []
    ensures forall i :: 0 <= i < |items| ==> items[i].id <= m
    ensures exists i :: 0 <= i < |items| && items[i].id == m
  {
    if |items| == 1 then items[0].id
    else
      var m := MaxId(items[1..]);
      assert forall i :: 1 <= i < |items| ==> items[i] == items[1..][i - 1];
      if items[0].id >= m then items[0].id else m
  }

  /** The id handleAddItem gives a new row: one more than the largest, or 1. */
  function NewId(items: seq<FormItem>): (n: int)
    ensures forall i :: 0 <= i < |items| ==> items[i].id < n
    ensures items == [] ==> n == 1
  {
    if |items| > 0 then MaxId(items) + 1 else 1
  }

  function AddItem(items: seq<FormItem>): (r: seq<FormItem>)
    ensures |r| == |items| + 1 && r[..|items|] == items
    ensures r[|items|] == BlankItem(NewId(items))
  {
    items + [BlankItem(NewId(items))]
  }

  /** Adding a row keeps the ids distinct and the totals unchanged (a blank row is worth 0). */
  lemma AddItemEffect(items: seq<FormItem>)
    ensures DistinctIds(items) ==> DistinctIds(AddItem(items))
    ensures FormTotals(AddItem(items)) == FormTotals(items)
  {
    var r := AddItem(items);
    assert r[..|r| - 1] == items;
  }

  function RemoveItem(items: seq<FormItem>, id: int): (r: seq<FormItem>)
    ensures forall i :: 0 <= i < |r| ==> r[i].id != id
  {
    var other := (it: FormItem) => it.id != id;
    FilterMembers(items, other);
    Filter(items, other)
  }

  /** With distinct ids, removing the row at k drops exactly that row and its line
      from the subtotal; removing an unknown id changes nothing. */
  lemma {:induction false} RemoveItemEffect(items: seq<FormItem>, id: int)
    requires DistinctIds(items)
    ensures DistinctIds(RemoveItem(items, id))
    ensures forall k :: 0 <= k < |items| && items[k].id == id ==>
      RemoveItem(items, id) == items[..k] + items[k + 1..]
      && Subtotal(RemoveItem(items, id)) == Subtotal(items) - Line(items[k])
    ensures (forall k :: 0 <= k < |items| ==> items[k].id != id) ==> RemoveItem(items, id) == items
  {
    var f := (it: FormItem) => it.id != id;
    FilterPairwise(items, f, (a: FormItem, b: FormItem) => a.id != b.id);
    forall k | 0 <= k < |items| && items[k].id == id
      ensures RemoveItem(items, id) == items[..k] + items[k + 1..]
      ensures Subtotal(RemoveItem(items, id)) == Subtotal(items) - Line(items[k])
    {
      FilterDropsOne(items, f, k);
      assert items == items[..k] + [items[k]] + items[k + 1..];
      SubtotalConcat(items[..k] + [items[k]], items[k + 1..]);
      SubtotalConcat(items[..k], [items[k]]);
      SubtotalConcat(items[..k], items[k + 1..]);
      SubtotalSingle(items[k]);
    }
    if forall k :: 0 <= k < |items| ==> items[k].id != id {
      FilterAll(items, f);
    }
  }

  /** The delete button is offered only when there is more than one row, and it
      names a row of the list: the list never becomes empty through it. */
  lemma RemoveOfferedKeepsOne(items: seq<FormItem>, k: nat)
    requires DistinctIds(items) && |items| > 1 && k < |items|
    ensures |RemoveItem(items, items[k].id)| == |items| - 1 >= 1
  {
    RemoveItemEffect(items, items[k].id);
  }

  // ------------------------------------------------------------- clients

  /** A client record as the API returns it; an absent field is None. */
  datatype Client = Client(
    clienteEmpresa: Option<string>,
    clienteNombre: Option<string>,
    clienteEmail: Option<string>,
    clienteTelefono: Option<string>,
    clienteDireccion: Option<string>)

  /** The filter of handleBusquedaChange: the lower-cased empresa or nombre contains
      the lower-cased query. */
  predicate Matches(c: Client, query: string) {
    (Truthy(c.clienteEmpresa) && Includes(Lower(c.clienteEmpresa.value), Lower(query)))
    || (Truthy(c.clienteNombre) && Includes(Lower(c.clienteNombre.value), Lower(query)))
  }

  function SearchClients(clientes: seq<Client>, query: string): (r: seq<Client>)
    ensures forall i :: 0 <= i < |r| ==> r[i] in clientes && Matches(r[i], query)
    ensures forall i :: 0 <= i < |clientes| ==> (clientes[i] in r <==> Matches(clientes[i], query))
  {
    var matching := (c: Client) => Matches(c, query);
    FilterMembers(clientes, matching);
    Filter(clientes, matching)
  }

  /** The search ignores the case of the query. */
  lemma SearchIgnoresCase(clientes: seq<Client>, query: string)
    ensures SearchClients(clientes, Lower(query)) == SearchClients(clientes, query)
  {
    LowerIdempotent(query);
    FilterSameTest(clientes, (c: Client) => Matches(c, Lower(query)), (c: Client) => Matches(c, query));
  }

  /** A query that is a piece of a client's empresa finds that client. */
  lemma SearchFindsEmpresa(clientes: seq<Client>, k: nat, i: nat, n: nat)
    requires k < |clientes| && Truthy(clientes[k].clienteEmpresa)
    requires i + n <= |clientes[k].clienteEmpresa.value|
    ensures clientes[k] in SearchClients(clientes, clientes[k].clienteEmpresa.value[i..i + n])
  {
    var e := clientes[k].clienteEmpresa.value;
    var q := e[i..i + n];
    assert Lower(e)[i..i + n] == Lower(q);
    assert OccursAt(Lower(e), Lower(q), i);
    IncludesAt(Lower(e), Lower(q));
  }

  /** `Array.from(new Set(data.map(JSON.stringify))).map(JSON.parse)`: equal records
      collapse to the first one, in first-seen order. */
  function DedupFrom(s: seq<Client>, seen: set<Client>): (r: seq<Client>)
    ensures forall i :: 0 <= i < |r| ==> r[i] in s && r[i] !in seen
    ensures forall i :: 0 <= i < |s| && s[i] !in seen ==> s[i] in r
    ensures forall i, j :: 0 <= i < j < |r| ==> r[i] != r[j]
  {
    if s == [] then []
    else if s[0] in seen then DedupFrom(s[1..], seen)
    else [s[0]] + DedupFrom(s[1..], seen + {s[0]})
  }

  function Dedup(s: seq<Client>): (r: seq<Client>)
    ensures forall i, j :: 0 <= i < j < |r| ==> r[i] != r[j]
    ensures forall c :: c in r <==> c in s
  {
    DedupFrom(s, {})
  }

  lemma {:induction false} DedupFromConcat(a: seq<Client>, b: seq<Client>, seen: set<Client>)
    ensures DedupFrom(a + b, seen) == DedupFrom(a, seen) + DedupFrom(b, seen + set c | c in a)
    decreases |a|
  {
    if a == [] {
      assert a + b == b;
      assert (set c | c in a) == {};
      assert seen + {} == seen;
    } else {
      assert (a + b)[0] == a[0] && (a + b)[1..] == a[1..] + b;
      var next := if a[0] in seen then seen else seen + {a[0]};
      DedupFromConcat(a[1..], b, next);
      assert next + (set c | c in a[1..]) == seen + set c | c in a;
    }
  }

  /** The de-duplication keeps the first occurrence of each record, in order:
      a record read after the others is kept exactly when it is new. */
  lemma DedupAppend(s: seq<Client>, x: Client)
    ensures Dedup(s + [x]) == Dedup(s) + (if x in s then [] else [x])
  {
    DedupFromConcat(s, [x], {});
    assert {} + (set c | c in s) == set c | c in s;
    assert [x][1..] == [];
  }

  /** A list without repeated records comes back unchanged. */
  lemma {:induction false} DedupDistinct(s: seq<Client>, seen: set<Client>)
    requires forall i, j :: 0 <= i < j < |s| ==> s[i] != s[j]
    requires forall i :: 0 <= i < |s| ==> s[i] !in seen
    ensures DedupFrom(s, seen) == s
  {
    if s != [] {
      assert forall i :: 0 <= i < |s[1..]| ==> s[1..][i] == s[i + 1];
      DedupDistinct(s[1..], seen + {s[0]});
    }
  }

  // ------------------------------------------------------------- payload

  datatype PayloadItem = PayloadItem(cantidad: real, caracteristica: string, valorUnitario: real)

  /** The body handleSubmit posts. */
  datatype Payload = Payload(
    clienteNombre: string,
    clienteEmpresa: string,
    clienteEmail: string,
    clienteTelefono: string,
    clienteDireccion: string,
    asunto: string,
    tiempoEntrega: string,
    observaciones: string,
    subtotal: real,
    iva: real,
    total: real,
    items: seq<PayloadItem>)

  function ToPayloadItem(it: FormItem): PayloadItem {
    PayloadItem(it.cantidad, it.caracteristica, it.precioUnitario)
  }

  function PayloadItems(items: seq<FormItem>): (r: seq<PayloadItem>)
    ensures |r| == |items|
    ensures forall i :: 0 <= i < |items| ==> r[i] == ToPayloadItem(items[i])
  {
    seq(|items|, i requires 0 <= i < |items| => ToPayloadItem(items[i]))
  }

  /** Σ cantidad × valor_unitario over the payload's items. */
  function PayloadSubtotal(items: seq<PayloadItem>): real {
    if items == [] then 0.0
    else PayloadSubtotal(items[..|items| - 1]) + items[|items| - 1].cantidad * items[|items| - 1].valorUnitario
  }

  /** The totals sent along are those of the items sent: a server that sums the
      payload's items finds the same subtotal, and iva and total follow the 19 % rule. */
  lemma {:induction false} PayloadTotalsMatchItems(items: seq<FormItem>)
    ensures PayloadSubtotal(PayloadItems(items)) == FormTotals(items).subtotal
    ensures Consistent(FormTotals(items))
  {
    if items != [] {
      var n := |items| - 1;
      assert PayloadItems(items)[..n] == PayloadItems(items[..n]);
      PayloadTotalsMatchItems(items[..n]);
    }
  }

  // ----------------------------------------------------------------- page

  function DefaultTiempoEntrega(): string { "1 Día, Esperando que la oferta sea de su aceptación" }

  /** The state of the CrearCotizacion component. */
  class QuoteFormPage {
    var clienteNombre: string
    var clienteEmpresa: string
    var clienteContacto: string
    var clienteDireccion: string
    var clienteEmail: string
    var clienteTelefono: string
    var tiempoEntrega: string
    var asunto: string
    var items: seq<FormItem>
    var notas: string
    var cotizacionCreada: Option<QuoteView.ViewQuotation>
    var clientes: seq<Client>
    var busquedaCliente: string
    var resultadosBusqueda: seq<Client>
    var mostrarResultados: bool

    /** The item ids stay distinct, so every edit and delete names one row. */
    ghost predicate Valid()
      reads this
    {
      DistinctIds(items)
    }

    /** The first render: empty fields, one blank item with id 1, no client list yet. */
    constructor ()
      ensures Valid()
      ensures clienteNombre == clienteEmpresa == clienteContacto == clienteDireccion == ""
      ensures clienteEmail == clienteTelefono == tiempoEntrega == asunto == notas == ""
      ensures items == [BlankItem(1)]
      ensures cotizacionCreada == None
      ensures clientes == [] && busquedaCliente == "" && resultadosBusqueda == [] && !mostrarResultados
    {
      clienteNombre, clienteEmpresa, clienteContacto, clienteDireccion := "", "", "", "";
      clienteEmail, clienteTelefono, tiempoEntrega, asunto, notas := "", "", "", "", "";
      items := [BlankItem(1)];
      cotizacionCreada := None;
      clientes, busquedaCliente, resultadosBusqueda, mostrarResultados := [], "", [], false;
    }

    /** The A4 view is shown instead of the form once a quotation was created. */
    predicate ShowsPrintView()
      reads this
    {
      cotizacionCreada.Some?
    }

    /** The totals panel. */
    function CurrentTotals(): (t: Totals)
      reads this
      ensures t == FormTotals(items)
    {
      FormTotals(items)
    }

    /** resetFormulario, the A4 view's back button: clears the quotation fields,
        puts back one blank item and the default delivery time, and returns to the
        form. The unused clienteNombre and the search state are kept. */
    method ResetFormulario()
      modifies this
      ensures Valid() && !ShowsPrintView()
      ensures clienteEmpresa == clienteContacto == clienteDireccion == clienteEmail == clienteTelefono == ""
      ensures asunto == notas == ""
      ensures tiempoEntrega == DefaultTiempoEntrega()
      ensures items == [BlankItem(1)]
      ensures cotizacionCreada == None
      ensures clienteNombre == old(clienteNombre) && clientes == old(clientes)
      ensures busquedaCliente == old(busquedaCliente) && resultadosBusqueda == old(resultadosBusqueda)
      ensures mostrarResultados == old(mostrarResultados)
    {
      clienteEmpresa, clienteContacto, clienteDireccion, clienteEmail, clienteTelefono := "", "", "", "", "";
      asunto := "";
      tiempoEntrega := DefaultTiempoEntrega();
      items := [BlankItem(1)];
      notas := "";
      cotizacionCreada := None;
    }

    /** cargarClientes on mount: keeps the de-duplicated list, or nothing on error. */
    method LoadClientes(data: Result<seq<Client>, string>)
      modifies this`clientes
      ensures data.Success? ==> clientes == Dedup(data.value)
      ensures data.Failure? ==> clientes == old(clientes)
    {
      if data.Success? {
        clientes := Dedup(data.value);
      }
    }

    method HandleItemChange(id: int, e: Edit)
      requires Valid()
      modifies this`items
      ensures Valid()
      ensures items == ChangeItem(old(items), id, e)
    {
      ChangeItemEffect(items, id, e);
      items := ChangeItem(items, id, e);
    }

    method HandleAddItem()
      requires Valid()
      modifies this`items
      ensures Valid()
      ensures items == AddItem(old(items))
      ensures CurrentTotals() == old(CurrentTotals())
    {
      AddItemEffect(items);
      items := AddItem(items);
    }

    method HandleRemoveItem(id: int)
      requires Valid()
      modifies this`items
      ensures Valid()
      ensures items == RemoveItem(old(items), id)
    {
      RemoveItemEffect(items, id);
      items := RemoveItem(items, id);
    }

    /** handleBusquedaChange: a query of two or more characters filters the client
        list and shows the results; a shorter one clears and hides them. */
    method HandleBusquedaChange(query: string)
      modifies this`busquedaCliente, this`resultadosBusqueda, this`mostrarResultados
      ensures busquedaCliente == query
      ensures |query| > 1 ==> resultadosBusqueda == SearchClients(clientes, query) && mostrarResultados
      ensures |query| <= 1 ==> resultadosBusqueda == [] && !mostrarResultados
    {
      busquedaCliente := query;
      if |query| > 1 {
        resultadosBusqueda := SearchClients(clientes, query);
        mostrarResultados := true;
      } else {
        resultadosBusqueda := [];
        mostrarResultados := false;
      }
    }

    /** handleSelectCliente: copies the client's fields into the form (absent or
        empty ones as ""), hides the results and clears the search box. */
    method HandleSelectCliente(c: Client)
      modifies this`clienteEmpresa, this`clienteContacto, this`clienteEmail, this`clienteTelefono,
        this`clienteDireccion, this`mostrarResultados, this`busquedaCliente
      ensures clienteEmpresa == OrEmpty(c.clienteEmpresa) && clienteContacto == OrEmpty(c.clienteNombre)
      ensures clienteEmail == OrEmpty(c.clienteEmail) && clienteTelefono == OrEmpty(c.clienteTelefono)
      ensures clienteDireccion == OrEmpty(c.clienteDireccion)
      ensures !mostrarResultados && busquedaCliente == ""
    {
      clienteEmpresa := OrEmpty(c.clienteEmpresa);
      clienteContacto := OrEmpty(c.clienteNombre);
      clienteEmail := OrEmpty(c.clienteEmail);
      clienteTelefono := OrEmpty(c.clienteTelefono);
      clienteDireccion := OrEmpty(c.clienteDireccion);
      mostrarResultados := false;
      busquedaCliente := "";
    }

    /** The body of the POST: the contact goes out as cliente_nombre, the notes as
        observaciones, with the current totals and one entry per item. */
    function CurrentPayload(): (p: Payload)
      reads this
      ensures p.clienteNombre == clienteContacto && p.clienteEmpresa == clienteEmpresa
      ensures p.observaciones == notas
      ensures Totals(p.subtotal, p.iva, p.total) == FormTotals(items)
      ensures p.items == PayloadItems(items)
    {
      var t := FormTotals(items);
      Payload(clienteContacto, clienteEmpresa, clienteEmail, clienteTelefono, clienteDireccion,
        asunto, tiempoEntrega, notas, t.subtotal, t.iva, t.total, PayloadItems(items))
    }

    /** handleSubmit after the request: on success the created quotation, with its
        client nested, replaces the form; on error the form stays as it is. */
    method SubmitFinished(response: Result<QuoteView.ApiQuotation, string>)
      modifies this`cotizacionCreada
      ensures response.Success? ==> cotizacionCreada == Some(QuoteView.ForView(response.value)) && ShowsPrintView()
      ensures response.Failure? ==> cotizacionCreada == old(cotizacionCreada)
    {
      if response.Success? {
        cotizacionCreada := Some(QuoteView.ForView(response.value));
      }
    }
  }
}
