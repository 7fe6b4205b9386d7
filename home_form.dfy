/** The older quotation form (Home.jsx): items are appended one at a time from
    three inputs after a validation, numbered 1, 2, 3, …; on submit the client
    fields must all be filled in and there must be an item, and the items travel
    to the backend only as lines of text in `observaciones`, next to the totals. */
module HomeForm {
  import opened Wrappers
  import opened Tax
  import opened Text

  /** An item of the list; precioTotal is computed when the item is added. */
  datatype HomeItem = HomeItem(id: nat, cantidad: real, detalle: string, precioUnitario: real, precioTotal: real)

  /** The `cliente` state object. */
  datatype ClientFields = ClientFields(nombre: string, empresa: string, email: string, telefono: string)

  /** The `name` attribute of the four client inputs. */
  datatype ClientField = Nombre | Empresa | Email | Telefono

  /** `{ ...cliente, [e.target.name]: e.target.value }` */
  function SetClientField(c: ClientFields, f: ClientField, v: string): (r: ClientFields)
  {
    match f
    case Nombre => c.(nombre := v)
    case Empresa => c.(empresa := v)
    case Email => c.(email := v)
    case Telefono => c.(telefono := v)
  }

  /** Reading back a field just written gives the written value; the other three keep theirs. */
  lemma SetClientFieldEffect(c: ClientFields, f: ClientField, v: string)
    ensures Get(SetClientField(c, f, v), f) == v
    ensures forall g :: g != f ==> Get(SetClientField(c, f, v), g) == Get(c, g)
  {
  }

  function Get(c: ClientFields, f: ClientField): string {
    match f
    case Nombre => c.nombre
    case Empresa => c.empresa
    case Email => c.email
    case Telefono => c.telefono
  }

  // ---------------------------------------------------------------- items

  /** Nothing but white space (or nothing at all). */
  predicate Blank(s: string) {
    forall i :: 0 <= i < |s| ==> IsJsSpace(s[i])
  }

  /** The validation of handleAddItem: a detail that is not blank, a positive
      quantity and a price that is not negative. */
  predicate Accepts(detalle: string, cantidad: real, precioUnitario: real) {
    !Blank(detalle) && cantidad > 0.0 && precioUnitario >= 0.0
  }

  /** Accepts is the test handleAddItem writes, `detalle.trim() !== ''` included. */
  lemma AcceptsIsGuard(detalle: string, cantidad: real, precioUnitario: real)
    ensures Accepts(detalle, cantidad, precioUnitario)
      <==> Trim(detalle) != "" && cantidad > 0.0 && precioUnitario >= 0.0
  {
    TrimEmptyIff(detalle);
  }

  /** The list after an accepted item: numbered one past the current length. */
  function Appended(items: seq<HomeItem>, detalle: string, cantidad: real, precioUnitario: real): (r: seq<HomeItem>)
    ensures |r| == |items| + 1 && r[..|items|] == items
  {
    items + [HomeItem(|items| + 1, cantidad, detalle, precioUnitario, cantidad * precioUnitario)]
  }

  /** Every list handleAddItem builds: items numbered 1..n, each accepted by the
      validation and carrying its own line total. */
  predicate WellFormed(items: seq<HomeItem>) {
    forall i :: 0 <= i < |items| ==>
      items[i].id == i + 1
      && Accepts(items[i].detalle, items[i].cantidad, items[i].precioUnitario)
      && items[i].precioTotal == items[i].cantidad * items[i].precioUnitario
  }

  /** Appending an accepted item keeps the list well formed. */
  lemma AppendedWellFormed(items: seq<HomeItem>, detalle: string, cantidad: real, precioUnitario: real)
    requires WellFormed(items) && Accepts(detalle, cantidad, precioUnitario)
    ensures WellFormed(Appended(items, detalle, cantidad, precioUnitario))
  {
    var x := HomeItem(|items| + 1, cantidad, detalle, precioUnitario, cantidad * precioUnitario);
    var r := items + [x];
    assert r == Appended(items, detalle, cantidad, precioUnitario);
    forall i | 0 <= i < |r|
      ensures r[i].id == i + 1
      ensures Accepts(r[i].detalle, r[i].cantidad, r[i].precioUnitario)
      ensures r[i].precioTotal == r[i].cantidad * r[i].precioUnitario
    {
      if i < |items| {
        assert r[i] == items[i];
      } else {
        assert r[i] == x;
      }
    }
  }

  /** Item ids of a well-formed list are distinct: id k sits at position k - 1. */
  lemma WellFormedIds(items: seq<HomeItem>)
    requires WellFormed(items)
    ensures forall i, j :: 0 <= i < j < |items| ==> items[i].id < items[j].id
  {
  }

  /** `items.reduce((sum, item) => sum + item.precioTotal, 0)` */
  function Subtotal(items: seq<HomeItem>): real {
    if items == [] then 0.0 else Subtotal(items[..|items| - 1]) + items[|items| - 1].precioTotal
  }

  /** The subtotal of a well-formed list is Σ cantidad × precio and never negative. */
  lemma {:induction false} SubtotalOfWellFormed(items: seq<HomeItem>)
    requires WellFormed(items)
    ensures Subtotal(items) >= 0.0
    ensures items != [] ==>
      Subtotal(items) == Subtotal(items[..|items| - 1]) + items[|items| - 1].cantidad * items[|items| - 1].precioUnitario
  {
    if items != [] {
      var init := items[..|items| - 1];
      assert forall i :: 0 <= i < |init| ==> init[i] == items[i];
      SubtotalOfWellFormed(init);
      var last := items[|items| - 1];
      assert Accepts(last.detalle, last.cantidad, last.precioUnitario);
      ProductNonNegative(last.cantidad, last.precioUnitario);
    }
  }

  lemma ProductNonNegative(a: real, b: real)
    requires a >= 0.0 && b >= 0.0
    ensures a * b >= 0.0
  {
  }

  /** Adding an item raises the subtotal by its cantidad × precio. */
  lemma AppendedSubtotal(items: seq<HomeItem>, detalle: string, cantidad: real, precioUnitario: real)
    ensures Subtotal(Appended(items, detalle, cantidad, precioUnitario)) == Subtotal(items) + cantidad * precioUnitario
  {
    var r := Appended(items, detalle, cantidad, precioUnitario);
    assert r[..|r| - 1] == items;
  }

  // -------------------------------------------------------------- payload

  const FixedTiempoEntrega: string := "1 Día, Esperando que la oferta sea de su aceptación"

  /** The body handleSubmit posts to the plain quotation endpoint. */
  datatype HomePayload = HomePayload(
    empresa: int,
    clienteNombre: string,
    clienteEmpresa: string,
    clienteEmail: string,
    clienteTelefono: string,
    detalle: string,
    observaciones: string,
    tiempoEntrega: string,
    subtotal: real,
    iva: real,
    total: real,
    activa: bool)

  /** The renderings of a number the text lines use: the template literal's
      `${n}` and `n.toLocaleString()`. Their output depends on the runtime and
      its locale, so they are parameters. */
  datatype NumberFormat = NumberFormat(plain: real -> string, locale: real -> string)

  /** `${id} - ${cantidad} - ${detalle} - ${precioUnitario.toLocaleString()} - ${precioTotal.toLocaleString()}` */
  function ItemLine(it: HomeItem, fmt: NumberFormat): string {
    Digits(it.id) + " - " + fmt.plain(it.cantidad) + " - " + it.detalle + " - "
      + fmt.locale(it.precioUnitario) + " - " + fmt.locale(it.precioTotal)
  }

  function ItemLines(items: seq<HomeItem>, fmt: NumberFormat): (r: seq<string>)
    ensures |r| == |items|
    ensures forall i :: 0 <= i < |items| ==> r[i] == ItemLine(items[i], fmt)
  {
    seq(|items|, i requires 0 <= i < |items| => ItemLine(items[i], fmt))
  }

  /** `items.map(...).join('\n')` */
  function Observaciones(items: seq<HomeItem>, fmt: NumberFormat): string {
    Join(ItemLines(items, fmt), '\n')
  }

  /** The guard of handleSubmit: all four client fields filled in and at least one item. */
  predicate CanSubmit(c: ClientFields, items: seq<HomeItem>) {
    c.nombre != "" && c.empresa != "" && c.email != "" && c.telefono != "" && |items| > 0
  }

  /** The payload, or None when the guard stops the submit. */
  function BuildPayload(c: ClientFields, items: seq<HomeItem>, fmt: NumberFormat): (p: Option<HomePayload>)
    ensures p.Some? <==> CanSubmit(c, items)
    ensures p.Some? ==>
      var t := Totals(p.value.subtotal, p.value.iva, p.value.total);
      t == WithIva(Subtotal(items))
      && p.value.detalle == items[0].detalle
      && p.value.clienteNombre == c.nombre && p.value.clienteEmpresa == c.empresa
      && p.value.clienteEmail == c.email && p.value.clienteTelefono == c.telefono
      && p.value.empresa == 1 && p.value.activa && p.value.tiempoEntrega == FixedTiempoEntrega
  {
    if !CanSubmit(c, items) then None
    else
      var t := WithIva(Subtotal(items));
      Some(HomePayload(1, c.nombre, c.empresa, c.email, c.telefono, items[0].detalle,
        Observaciones(items, fmt), FixedTiempoEntrega, t.subtotal, t.iva, t.total, true))
  }

  /** A number rendering that never produces a line break. */
  ghost predicate OneLine(fmt: NumberFormat) {
    forall x :: '\n' !in fmt.plain(x) && '\n' !in fmt.locale(x)
  }

  /** The observaciones text holds one line per item, in order: splitting it at
      the line breaks gives back each item's line (the inputs are single-line, so
      no detail holds a line break). */
  lemma ObservacionesLines(items: seq<HomeItem>, fmt: NumberFormat)
    requires |items| > 0 && OneLine(fmt)
    requires forall i :: 0 <= i < |items| ==> '\n' !in items[i].detalle
    ensures Split(Observaciones(items, fmt), '\n') == ItemLines(items, fmt)
  {
    var lines := ItemLines(items, fmt);
    forall i | 0 <= i < |lines| ensures '\n' !in lines[i] {
      var d := Digits(items[i].id);
      assert '\n' !in d;
    }
    SplitJoin(lines, '\n');
  }

  /** A payload from a well-formed list carries non-negative totals that follow the 19 % rule. */
  lemma PayloadTotals(c: ClientFields, items: seq<HomeItem>, fmt: NumberFormat)
    requires WellFormed(items) && CanSubmit(c, items)
    ensures var p := BuildPayload(c, items, fmt).value;
      0.0 <= p.iva <= p.subtotal <= p.total && Consistent(Totals(p.subtotal, p.iva, p.total))
  {
    SubtotalOfWellFormed(items);
  }

  // ------------------------------------------------------------------ page

  /** The state of the Home component. */
  class HomePage {
    var cliente: ClientFields
    var items: seq<HomeItem>
    var detalle: string
    var cantidad: real
    var precioUnitario: real

    ghost predicate Valid()
      reads this
    {
      WellFormed(items)
    }

    constructor ()
      ensures Valid()
      ensures cliente == ClientFields("", "", "", "") && items == []
      ensures detalle == "" && cantidad == 1.0 && precioUnitario == 0.0
    {
      cliente := ClientFields("", "", "", "");
      items := [];
      detalle, cantidad, precioUnitario := "", 1.0, 0.0;
    }

    method HandleClienteChange(f: ClientField, v: string)
      modifies this`cliente
      ensures cliente == SetClientField(old(cliente), f, v)
    {
      cliente := SetClientField(cliente, f, v);
    }

    /** handleAddItem: an accepted entry is appended and the inputs go back to
        "", 1 and 0; a rejected one changes nothing. */
    method HandleAddItem()
      requires Valid()
      modifies this`items, this`detalle, this`cantidad, this`precioUnitario
      ensures Valid()
      ensures old(Accepts(detalle, cantidad, precioUnitario)) ==>
        items == Appended(old(items), old(detalle), old(cantidad), old(precioUnitario))
        && detalle == "" && cantidad == 1.0 && precioUnitario == 0.0
      ensures !old(Accepts(detalle, cantidad, precioUnitario)) ==>
        items == old(items) && detalle == old(detalle) && cantidad == old(cantidad)
        && precioUnitario == old(precioUnitario)
    {
      AcceptsIsGuard(detalle, cantidad, precioUnitario);
      if Trim(detalle) != "" && cantidad > 0.0 && precioUnitario >= 0.0 {
        AppendedWellFormed(items, detalle, cantidad, precioUnitario);
        items := Appended(items, detalle, cantidad, precioUnitario);
        detalle, cantidad, precioUnitario := "", 1.0, 0.0;
      }
    }

    /** What handleSubmit would post, or None when its guard stops it. */
    function Submit(fmt: NumberFormat): (p: Option<HomePayload>)
      reads this
      ensures p == BuildPayload(cliente, items, fmt)
    {
      BuildPayload(cliente, items, fmt)
    }
  }
}
