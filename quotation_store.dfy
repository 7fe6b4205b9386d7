/** The quotation store of the backend (cotizacion/models.py, the second
    definitions of Cotizacion and ItemCotizacion): sequential numbering of
    quotations, item totals, and the quotation totals that every item save or
    delete recomputes. The database tables are sequences of rows in insertion
    order; Decimal amounts are exact reals. */
module QuotationStore {
  import opened Wrappers
  import opened Tax
  import opened Seqs

  /** A table row: the primary key and the values of the other columns. */
  datatype Row<T> = Row(pk: nat, val: T)

  /** A Cotizacion. A numero of 0 stands for "not numbered yet" (`not self.numero`). */
  datatype Quotation = Quotation(
    numero: nat,
    clienteNombre: string,
    clienteEmpresa: string,
    clienteEmail: string,
    clienteTelefono: string,
    asunto: string,
    observaciones: string,
    tiempoEntrega: string,
    subtotal: real,
    iva: real,
    total: real,
    activa: bool)
  {
    function Amounts(): Totals {
      Totals(subtotal, iva, total)
    }

    function WithAmounts(t: Totals): (q: Quotation)
      ensures q.Amounts() == t
    {
      this.(subtotal := t.subtotal, iva := t.iva, total := t.total)
    }
  }

  /** An ItemCotizacion; `cotizacion` is the primary key of its quotation. */
  datatype Item = Item(
    cotizacion: nat,
    itemNumero: nat,
    cantidad: nat,
    caracteristica: string,
    valorUnitario: real,
    total: real)

  /** The IntegrityError a save can raise. */
  datatype IntegrityError = DuplicateNumero | DuplicateItemNumero | MissingQuotation

  // ---------------------------------------------------------------- tables

  predicate HasPk<T>(t: seq<Row<T>>, pk: nat) {
    exists i :: 0 <= i < |t| && t[i].pk == pk
  }

  predicate DistinctPks<T>(t: seq<Row<T>>) {
    forall i, j :: 0 <= i < j < |t| ==> t[i].pk != t[j].pk
  }

  /** The position of the row with primary key pk, or -1. */
  function IndexOf<T>(t: seq<Row<T>>, pk: nat): (i: int)
    ensures -1 <= i < |t|
    ensures i >= 0 ==> t[i].pk == pk
    ensures i < 0 <==> !HasPk(t, pk)
  {
    if t == [] then -1
    else if t[0].pk == pk then 0
    else
      var i := IndexOf(t[1..], pk);
      assert forall j :: 0 < j < |t| ==> t[j] == t[1..][j - 1];
      if i < 0 then -1 else i + 1
  }

  function Lookup<T>(t: seq<Row<T>>, pk: nat): Option<T> {
    var i := IndexOf(t, pk);
    if i < 0 then None else Some(t[i].val)
  }

  /** An INSERT of a new key, or an UPDATE of the row that has it. */
  function Put<T>(t: seq<Row<T>>, pk: nat, v: T): (r: seq<Row<T>>)
    ensures HasPk(r, pk)
    ensures DistinctPks(t) ==> DistinctPks(r) && Lookup(r, pk) == Some(v)
    ensures forall k :: k != pk ==> (HasPk(r, k) <==> HasPk(t, k))
    ensures forall j :: 0 <= j < |r| ==> r[j].pk == pk || r[j] in t
    ensures forall j :: 0 <= j < |t| && t[j].pk != pk ==> t[j] in r
  {
    var i := IndexOf(t, pk);
    if i < 0 then
      var r := t + [Row(pk, v)];
      assert r[|t|].pk == pk;
      assert forall j :: 0 <= j < |t| ==> r[j] == t[j];
      assert forall k :: k != pk && HasPk(r, k) ==> HasPk(t, k) by {
        forall k | k != pk && HasPk(r, k) ensures HasPk(t, k) {
          var j :| 0 <= j < |r| && r[j].pk == k;
          assert j < |t| && t[j].pk == k;
        }
      }
      r
    else
      var r := t[i := Row(pk, v)];
      assert r[i].pk == pk;
      assert forall j :: 0 <= j < |t| && j != i ==> r[j] == t[j];
      assert forall k :: k != pk && HasPk(t, k) ==> HasPk(r, k) by {
        forall k | k != pk && HasPk(t, k) ensures HasPk(r, k) {
          var j :| 0 <= j < |t| && t[j].pk == k;
          assert r[j].pk == k;
        }
      }
      assert forall k :: k != pk && HasPk(r, k) ==> HasPk(t, k) by {
        forall k | k != pk && HasPk(r, k) ensures HasPk(t, k) {
          var j :| 0 <= j < |r| && r[j].pk == k;
          assert t[j].pk == k;
        }
      }
      r
  }

  /** The test of `.filter(pk != k)` / `.exclude(pk=k)`. */
  function NotPk<T>(pk: nat): Row<T> -> bool {
    (r: Row<T>) => r.pk != pk
  }

  /** A DELETE of the row with primary key pk. */
  function WithoutPk<T>(t: seq<Row<T>>, pk: nat): (r: seq<Row<T>>)
    ensures !HasPk(r, pk)
    ensures forall k :: k != pk ==> (HasPk(r, k) <==> HasPk(t, k))
    ensures forall i :: 0 <= i < |r| ==> r[i] in t
  {
    var r := Filter(t, NotPk(pk));
    FilterMembers(t, NotPk(pk));
    forall k | k != pk && HasPk(t, k) ensures HasPk(r, k) {
      var j :| 0 <= j < |t| && t[j].pk == k;
      assert t[j] in r;
    }
    r
  }

  lemma LookupOther<T>(t: seq<Row<T>>, pk: nat, v: T, k: nat)
    requires DistinctPks(t) && k != pk
    ensures Lookup(Put(t, pk, v), k) == Lookup(t, k)
  {
    var r := Put(t, pk, v);
    var i, j := IndexOf(t, k), IndexOf(r, k);
    if i >= 0 {
      assert r[i] == t[i];
    }
  }

  // ------------------------------------------------------------- numbering

  /** `Cotizacion.objects.aggregate(Max('numero'))`, with 0 for an empty table. */
  function MaxNumero(quotes: seq<Row<Quotation>>): (m: nat)
    ensures forall i :: 0 <= i < |quotes| ==> quotes[i].val.numero <= m
    ensures quotes == [] ==> m == 0
    ensures quotes != [] ==> exists i :: 0 <= i < |quotes| && quotes[i].val.numero == m
  {
    if quotes == [] then 0
    else
      var m := MaxNumero(quotes[1..]);
      assert forall i :: 0 < i < |quotes| ==> quotes[i] == quotes[1..][i - 1];
      if quotes[0].val.numero >= m then quotes[0].val.numero else m
  }

  /** `(ultimo_numero or 0) + 1`: the number a quotation saved without one gets. */
  function NextNumero(quotes: seq<Row<Quotation>>): (n: nat)
    ensures n >= 1
    ensures forall i :: 0 <= i < |quotes| ==> quotes[i].val.numero < n
    ensures quotes == [] ==> n == 1
  {
    MaxNumero(quotes) + 1
  }

  /** The unique constraint on numero: another row already holds n. */
  predicate NumeroTaken(quotes: seq<Row<Quotation>>, pk: nat, n: nat) {
    exists i :: 0 <= i < |quotes| && quotes[i].pk != pk && quotes[i].val.numero == n
  }

  /** An automatic number never collides with an existing one. */
  lemma NextNumeroFree(quotes: seq<Row<Quotation>>, pk: nat)
    ensures !NumeroTaken(quotes, pk, NextNumero(quotes))
  {
  }

  // ---------------------------------------------------------------- totals

  /** `self.items.all()` as a multiset of rows: the items whose foreign key is pk. */
  function ItemsOf(items: seq<Row<Item>>, pk: nat): (r: seq<Row<Item>>)
    ensures forall i :: 0 <= i < |r| ==> r[i].val.cotizacion == pk && r[i] in items
    ensures forall i :: 0 <= i < |items| && items[i].val.cotizacion == pk ==> items[i] in r
  {
    var mine := (it: Row<Item>) => it.val.cotizacion == pk;
    FilterMembers(items, mine);
    Filter(items, mine)
  }

  /** `sum(item.total for item in items)`. */
  function SumTotals(items: seq<Row<Item>>): real {
    if items == [] then 0.0 else items[0].val.total + SumTotals(items[1..])
  }

  lemma {:induction false} SumTotalsConcat(a: seq<Row<Item>>, b: seq<Row<Item>>)
    ensures SumTotals(a + b) == SumTotals(a) + SumTotals(b)
  {
    if a == [] {
      assert a + b == b;
    } else {
      assert (a + b)[0] == a[0] && (a + b)[1..] == a[1..] + b;
      SumTotalsConcat(a[1..], b);
    }
  }

  /** `calcular_totales`: subtotal = Σ item totals, iva = 19 %, total = subtotal + iva. */
  function CalcularTotales(items: seq<Row<Item>>, pk: nat): (t: Totals)
    ensures t.total == t.subtotal + t.iva && t.iva == t.subtotal * IvaRate
    ensures ItemsOf(items, pk) == [] ==> t == Zero
  {
    WithIva(SumTotals(ItemsOf(items, pk)))
  }

  /** The MinValueValidators on cantidad and valor_unitario. Django runs them in
      full_clean (forms, the admin, serializers), not in save. */
  predicate PassesValidators(it: Item) {
    it.cantidad >= 1 && it.valorUnitario >= 0.0
  }

  /** The total that ItemCotizacion.save writes: cantidad × valor_unitario. */
  predicate TotalIsLine(it: Item) {
    it.total == it.cantidad as real * it.valorUnitario
  }

  lemma {:induction false} SumTotalsNonNegative(items: seq<Row<Item>>)
    requires forall i :: 0 <= i < |items| ==> PassesValidators(items[i].val) && TotalIsLine(items[i].val)
    ensures SumTotals(items) >= 0.0
  {
    if items != [] {
      var it := items[0].val;
      assert it.total >= 0.0 by {
        assert it.cantidad as real >= 1.0;
      }
      SumTotalsNonNegative(items[1..]);
    }
  }

  /** When every item passes the validators, all the amounts of a quotation
      are non-negative. */
  lemma ValidatedTotalsNonNegative(items: seq<Row<Item>>, pk: nat)
    requires forall i :: 0 <= i < |items| ==> PassesValidators(items[i].val) && TotalIsLine(items[i].val)
    ensures var t := CalcularTotales(items, pk); 0.0 <= t.iva <= t.subtotal <= t.total
  {
    SumTotalsNonNegative(ItemsOf(items, pk));
  }

  lemma ItemsOfConcat(a: seq<Row<Item>>, b: seq<Row<Item>>, pk: nat)
    ensures ItemsOf(a + b, pk) == ItemsOf(a, pk) + ItemsOf(b, pk)
  {
    FilterConcat(a, b, (it: Row<Item>) => it.val.cotizacion == pk);
  }

  /** Inserting a new item adds its total to its quotation's sum and leaves
      every other quotation's sum as it was. */
  lemma InsertAddsLine(items: seq<Row<Item>>, pk: nat, it: Item, q: nat)
    requires !HasPk(items, pk)
    ensures SumTotals(ItemsOf(Put(items, pk, it), q))
      == SumTotals(ItemsOf(items, q)) + (if it.cotizacion == q then it.total else 0.0)
  {
    assert Put(items, pk, it) == items + [Row(pk, it)];
    ItemsOfConcat(items, [Row(pk, it)], q);
    SumTotalsConcat(ItemsOf(items, q), ItemsOf([Row(pk, it)], q));
    assert [Row(pk, it)][1..] == [];
  }

  /** Deleting an item takes its total off its quotation's sum and leaves every
      other quotation's sum as it was. */
  lemma DeleteSubtractsLine(items: seq<Row<Item>>, k: nat, q: nat)
    requires DistinctPks(items) && k < |items|
    ensures var rest := WithoutPk(items, items[k].pk);
      SumTotals(ItemsOf(rest, q))
        == SumTotals(ItemsOf(items, q)) - (if items[k].val.cotizacion == q then items[k].val.total else 0.0)
  {
    var pk := items[k].pk;
    FilterDropsOne(items, NotPk(pk), k);
    var pre, post := items[..k], items[k + 1..];
    assert items == pre + [items[k]] + post;
    ItemsOfConcat(pre + [items[k]], post, q);
    ItemsOfConcat(pre, [items[k]], q);
    ItemsOfConcat(pre, post, q);
    assert [items[k]][1..] == [];
    SumTotalsConcat(ItemsOf(pre, q) + ItemsOf([items[k]], q), ItemsOf(post, q));
    SumTotalsConcat(ItemsOf(pre, q), ItemsOf([items[k]], q));
    SumTotalsConcat(ItemsOf(pre, q), ItemsOf(post, q));
  }

  // ------------------------------------------------------- Cotizacion.save

  /** The result of Cotizacion.save: the new quotation table and the saved
      instance (whose amounts are the recomputed ones). */
  datatype Saved = Saved(quotes: seq<Row<Quotation>>, instance: Quotation)

  /** The row Cotizacion.save leaves in the table: the instance with its number,
      whose amounts are replaced by the recomputed totals only when those are not
      all zero (the second save is skipped otherwise). */
  function StoredRow(q: Quotation, numero: nat, t: Totals): (row: Quotation)
    ensures row.numero == numero
    ensures t != Zero ==> row.Amounts() == t
    ensures t == Zero ==> row.Amounts() == q.Amounts()
    ensures row.WithAmounts(q.Amounts()) == q.(numero := numero)
  {
    var written := q.(numero := numero);
    if t != Zero then written.WithAmounts(t) else written
  }

  /** Cotizacion.save on the row with primary key pk: number the quotation when
      it has no number, write it, then recompute its totals from its items. */
  function CotizacionSave(quotes: seq<Row<Quotation>>, items: seq<Row<Item>>, pk: nat, q: Quotation)
    : (r: Result<Saved, IntegrityError>)
    ensures var n := if q.numero == 0 then NextNumero(quotes) else q.numero;
      && (r.Failure? <==> NumeroTaken(quotes, pk, n))
      && (r.Failure? ==> r.error == DuplicateNumero)
      && (r.Success? ==>
            && r.value.instance.numero == n
            && r.value.instance.Amounts() == CalcularTotales(items, pk)
            && r.value.quotes == Put(quotes, pk, StoredRow(q, n, CalcularTotales(items, pk))))
  {
    var numero := if q.numero == 0 then NextNumero(quotes) else q.numero;
    if NumeroTaken(quotes, pk, numero) then Failure(DuplicateNumero)
    else
      var t := CalcularTotales(items, pk);
      Success(Saved(Put(quotes, pk, StoredRow(q, numero, t)), q.(numero := numero).WithAmounts(t)))
  }

  /** A quotation saved without a number gets one larger than every existing
      number; one saved with a number keeps it. */
  lemma SaveNumbering(quotes: seq<Row<Quotation>>, items: seq<Row<Item>>, pk: nat, q: Quotation)
    ensures q.numero == 0 ==> CotizacionSave(quotes, items, pk, q).Success?
    ensures var r := CotizacionSave(quotes, items, pk, q);
      r.Success? ==>
        && r.value.instance.numero >= 1
        && (q.numero != 0 ==> r.value.instance.numero == q.numero)
        && (q.numero == 0 ==> forall i :: 0 <= i < |quotes| ==> quotes[i].val.numero < r.value.instance.numero)
  {
    NextNumeroFree(quotes, pk);
  }

  /** Numbering is strictly increasing: after an automatic number n is
      assigned, the next automatic number is n + 1. */
  lemma NumberingIncreases(quotes: seq<Row<Quotation>>, items: seq<Row<Item>>, pk: nat, q: Quotation)
    requires DistinctPks(quotes) && q.numero == 0
    ensures var r := CotizacionSave(quotes, items, pk, q);
      r.Success? && NextNumero(r.value.quotes) == r.value.instance.numero + 1
  {
    NextNumeroFree(quotes, pk);
    var r := CotizacionSave(quotes, items, pk, q);
    var n := NextNumero(quotes);
    var t := r.value.quotes;
    var m := MaxNumero(t);
    assert Lookup(t, pk) == Some(StoredRow(q, n, CalcularTotales(items, pk)));
    var k := IndexOf(t, pk);
    assert t[k].val.numero == n;
    assert m >= n;
    var w :| 0 <= w < |t| && t[w].val.numero == m;
    if t[w].pk != pk {
      assert t[w] in quotes;
    }
  }

  /** A quotation that has no items keeps the amounts it was saved with; one
      whose items add up to a non-zero subtotal stores the recomputed totals. */
  lemma SaveStoredAmounts(quotes: seq<Row<Quotation>>, items: seq<Row<Item>>, pk: nat, q: Quotation)
    requires DistinctPks(quotes)
    ensures var r := CotizacionSave(quotes, items, pk, q);
      r.Success? ==>
        var row := Lookup(r.value.quotes, pk).value;
        && (ItemsOf(items, pk) == [] ==> row.Amounts() == q.Amounts())
        && (SumTotals(ItemsOf(items, pk)) != 0.0 ==> row.Amounts() == CalcularTotales(items, pk))
  {
  }

  // ----------------------------------------------------------- the store

  /** The quotation table's constraints: unique primary keys, and every
      quotation numbered with a distinct positive number. */
  ghost predicate QuotesOk(quotes: seq<Row<Quotation>>) {
    && DistinctPks(quotes)
    && (forall i :: 0 <= i < |quotes| ==> quotes[i].val.numero >= 1)
    && (forall i, j :: 0 <= i < j < |quotes| ==> quotes[i].val.numero != quotes[j].val.numero)
  }

  /** The item table's constraints: unique primary keys, item numbers unique
      within a quotation, and every total equal to cantidad × valor_unitario. */
  ghost predicate ItemsOk(items: seq<Row<Item>>) {
    && DistinctPks(items)
    && (forall i, j :: 0 <= i < j < |items| && items[i].val.cotizacion == items[j].val.cotizacion ==>
          items[i].val.itemNumero != items[j].val.itemNumero)
    && (forall i :: 0 <= i < |items| ==> TotalIsLine(items[i].val))
  }

  /** The foreign key: every item refers to an existing quotation. */
  ghost predicate RefsOk(items: seq<Row<Item>>, quotes: seq<Row<Quotation>>) {
    forall i :: 0 <= i < |items| ==> HasPk(quotes, items[i].val.cotizacion)
  }

  /** Writing a row whose number no other row holds keeps the quotation
      constraints and every existing key. */
  lemma PutKeepsNumbering(quotes: seq<Row<Quotation>>, pk: nat, row: Quotation)
    requires QuotesOk(quotes)
    requires row.numero >= 1 && !NumeroTaken(quotes, pk, row.numero)
    ensures QuotesOk(Put(quotes, pk, row))
    ensures forall k :: HasPk(Put(quotes, pk, row), k) <==> HasPk(quotes, k) || k == pk
  {
    var t := Put(quotes, pk, row);
    forall k | HasPk(quotes, k) ensures HasPk(t, k) {
      if k != pk {
        assert HasPk(t, k);
      }
    }
  }

  /** References stay valid when the quotation table keeps every key. */
  lemma RefsKept(items: seq<Row<Item>>, before: seq<Row<Quotation>>, after: seq<Row<Quotation>>)
    requires RefsOk(items, before)
    requires forall k :: HasPk(before, k) ==> HasPk(after, k)
    ensures RefsOk(items, after)
  {
    forall i | 0 <= i < |items| ensures HasPk(after, items[i].val.cotizacion) {
      assert HasPk(before, items[i].val.cotizacion);
    }
  }

  /** The unique_together constraint: another item of the same quotation
      already has this item number. */
  predicate ItemNumeroTaken(items: seq<Row<Item>>, pk: nat, it: Item) {
    exists i :: 0 <= i < |items| && items[i].pk != pk
      && items[i].val.cotizacion == it.cotizacion && items[i].val.itemNumero == it.itemNumero
  }

  /** Writing an item that refers to an existing quotation, takes no other
      item's number and has its line total keeps the item constraints. */
  lemma PutKeepsItems(items: seq<Row<Item>>, quotes: seq<Row<Quotation>>, pk: nat, it: Item)
    requires ItemsOk(items) && RefsOk(items, quotes)
    requires HasPk(quotes, it.cotizacion) && !ItemNumeroTaken(items, pk, it) && TotalIsLine(it)
    ensures ItemsOk(Put(items, pk, it)) && RefsOk(Put(items, pk, it), quotes)
  {
    var t := Put(items, pk, it);
    forall i | 0 <= i < |t| ensures HasPk(quotes, t[i].val.cotizacion) && TotalIsLine(t[i].val) {
      if t[i].pk != pk {
        var j :| 0 <= j < |items| && items[j] == t[i];
      }
    }
  }

  /** Removing item rows keeps the item constraints and the references. */
  lemma FilterKeepsItems(items: seq<Row<Item>>, quotes: seq<Row<Quotation>>, keep: Row<Item> -> bool)
    requires ItemsOk(items) && RefsOk(items, quotes)
    ensures ItemsOk(Filter(items, keep)) && RefsOk(Filter(items, keep), quotes)
  {
    var P := (a: Row<Item>, b: Row<Item>) =>
      a.pk != b.pk && (a.val.cotizacion == b.val.cotizacion ==> a.val.itemNumero != b.val.itemNumero);
    assert Pairwise(items, P);
    FilterPairwise(items, keep, P);
    FilterMembers(items, keep);
    var t := Filter(items, keep);
    assert forall i, j :: 0 <= i < j < |t| ==> P(t[i], t[j]);
    forall i | 0 <= i < |t| ensures HasPk(quotes, t[i].val.cotizacion) && TotalIsLine(t[i].val) {
      var j :| 0 <= j < |items| && items[j] == t[i];
    }
  }

  /** Removing quotation rows keeps the quotation constraints. */
  lemma FilterKeepsNumbering(quotes: seq<Row<Quotation>>, keep: Row<Quotation> -> bool)
    requires QuotesOk(quotes)
    ensures QuotesOk(Filter(quotes, keep))
  {
    var P := (a: Row<Quotation>, b: Row<Quotation>) => a.pk != b.pk && a.val.numero != b.val.numero;
    assert Pairwise(quotes, P);
    FilterPairwise(quotes, keep, P);
    var t := Filter(quotes, keep);
    assert forall i, j :: 0 <= i < j < |t| ==> P(t[i], t[j]);
  }

  /** The test of the cascade: the item does not belong to quotation pk. */
  function NotOf(pk: nat): Row<Item> -> bool {
    (r: Row<Item>) => r.val.cotizacion != pk
  }

  /** The items a cascading delete of quotation pk leaves: none of them
      belongs to pk. */
  function WithoutItemsOf(items: seq<Row<Item>>, pk: nat): (r: seq<Row<Item>>)
    ensures ItemsOf(r, pk) == []
    ensures forall i :: 0 <= i < |r| ==> r[i] in items
    ensures forall i :: 0 <= i < |items| && items[i].val.cotizacion != pk ==> items[i] in r
  {
    var r := Filter(items, NotOf(pk));
    FilterMembers(items, NotOf(pk));
    FilterNone(r, (it: Row<Item>) => it.val.cotizacion == pk);
    r
  }

  /** After the cascade every remaining item still refers to a remaining quotation. */
  lemma CascadeKeepsReferences(quotes: seq<Row<Quotation>>, items: seq<Row<Item>>, pk: nat)
    requires RefsOk(items, quotes)
    ensures RefsOk(WithoutItemsOf(items, pk), WithoutPk(quotes, pk))
  {
    var qs := WithoutPk(quotes, pk);
    var its := WithoutItemsOf(items, pk);
    forall i | 0 <= i < |its| ensures HasPk(qs, its[i].val.cotizacion) {
      var j :| 0 <= j < |items| && items[j] == its[i];
      assert HasPk(quotes, items[j].val.cotizacion);
    }
  }

  /** The two tables. */
  class Store {
    var quotes: seq<Row<Quotation>>
    var items: seq<Row<Item>>

    /** What the database constraints and the save methods keep true. */
    ghost predicate Valid()
      reads this
    {
      QuotesOk(quotes) && ItemsOk(items) && RefsOk(items, quotes)
    }

    constructor ()
      ensures Valid() && quotes == [] && items == []
    {
      quotes, items := [], [];
    }

    /** `Cotizacion.save()` on the row with primary key pk (a new key inserts). */
    method SaveQuotation(pk: nat, q: Quotation) returns (r: Result<Quotation, IntegrityError>)
      requires Valid()
      modifies this
      ensures Valid()
      ensures items == old(items)
      ensures match CotizacionSave(old(quotes), items, pk, q)
        case Success(s) => r == Success(s.instance) && quotes == s.quotes
        case Failure(e) => r == Failure(e) && quotes == old(quotes)
    {
      var s := CotizacionSave(quotes, items, pk, q);
      match s
      case Success(saved) =>
        var n := saved.instance.numero;
        SaveNumbering(quotes, items, pk, q);
        PutKeepsNumbering(quotes, pk, StoredRow(q, n, CalcularTotales(items, pk)));
        RefsKept(items, quotes, saved.quotes);
        quotes := saved.quotes;
        r := Success(saved.instance);
      case Failure(e) =>
        r := Failure(e);
    }

    /** `ItemCotizacion.save()`: the item's total becomes cantidad ×
        valor_unitario, the row is written (the database rejects an unknown
        quotation and a repeated item number within the quotation), and the
        quotation's totals are recomputed over its items and saved. */
    method SaveItem(pk: nat, it: Item) returns (r: Result<Item, IntegrityError>)
      requires Valid()
      modifies this
      ensures Valid()
      ensures var item := it.(total := it.cantidad as real * it.valorUnitario);
        if !HasPk(old(quotes), it.cotizacion) then
          r == Failure(MissingQuotation) && quotes == old(quotes) && items == old(items)
        else if ItemNumeroTaken(old(items), pk, item) then
          r == Failure(DuplicateItemNumero) && quotes == old(quotes) && items == old(items)
        else
          && r == Success(item)
          && items == Put(old(items), pk, item)
          && Lookup(quotes, it.cotizacion)
               == Some(Lookup(old(quotes), it.cotizacion).value.WithAmounts(CalcularTotales(items, it.cotizacion)))
          && (forall k :: k != it.cotizacion ==> Lookup(quotes, k) == Lookup(old(quotes), k))
    {
      var item := it.(total := it.cantidad as real * it.valorUnitario);
      if !HasPk(quotes, it.cotizacion) {
        r := Failure(MissingQuotation);
      } else if ItemNumeroTaken(items, pk, item) {
        r := Failure(DuplicateItemNumero);
      } else {
        PutKeepsItems(items, quotes, pk, item);
        items := Put(items, pk, item);
        RecomputeParent(it.cotizacion);
        r := Success(item);
      }
    }

    /** `cotizacion.calcular_totales(); cotizacion.save()` for the quotation
        with primary key pk, which exists and has a number. */
    method RecomputeParent(pk: nat)
      requires HasPk(quotes, pk) && QuotesOk(quotes) && RefsOk(items, quotes)
      modifies this`quotes
      ensures QuotesOk(quotes) && RefsOk(items, quotes)
      ensures Lookup(quotes, pk) == Some(Lookup(old(quotes), pk).value.WithAmounts(CalcularTotales(items, pk)))
      ensures forall k :: k != pk ==> Lookup(quotes, k) == Lookup(old(quotes), k)
    {
      var parent := quotes[IndexOf(quotes, pk)].val;
      var t := CalcularTotales(items, pk);
      var instance := parent.WithAmounts(t);
      assert !NumeroTaken(quotes, pk, instance.numero) by {
        var k := IndexOf(quotes, pk);
        forall i | 0 <= i < |quotes| && quotes[i].pk != pk ensures quotes[i].val.numero != instance.numero {
          assert i != k;
        }
      }
      var row := StoredRow(instance, instance.numero, t);
      PutKeepsNumbering(quotes, pk, row);
      RefsKept(items, quotes, Put(quotes, pk, row));
      forall k | k != pk ensures Lookup(Put(quotes, pk, row), k) == Lookup(quotes, k) {
        LookupOther(quotes, pk, row, k);
      }
      var s := CotizacionSave(quotes, items, pk, instance);
      quotes := s.value.quotes;
    }

    /** `ItemCotizacion.delete()` on the item with primary key pk: the row is
        removed and its quotation's totals are recomputed over the remaining
        items and saved. Returns false, changing nothing, when no such item exists. */
    method DeleteItem(pk: nat) returns (found: bool)
      requires Valid()
      modifies this
      ensures Valid()
      ensures found == HasPk(old(items), pk)
      ensures !found ==> quotes == old(quotes) && items == old(items)
      ensures found ==>
        var q := Lookup(old(items), pk).value.cotizacion;
        && items == WithoutPk(old(items), pk)
        && Lookup(quotes, q) == Some(Lookup(old(quotes), q).value.WithAmounts(CalcularTotales(items, q)))
        && (forall k :: k != q ==> Lookup(quotes, k) == Lookup(old(quotes), k))
    {
      var i := IndexOf(items, pk);
      if i < 0 {
        return false;
      }
      var q := items[i].val.cotizacion;
      assert HasPk(quotes, q);
      FilterKeepsItems(items, quotes, NotPk(pk));
      items := WithoutPk(items, pk);
      RecomputeParent(q);
      found := true;
    }

    /** `Cotizacion.delete()`: the row and, by the cascading foreign key, all
        its items are removed. */
    method DeleteQuotation(pk: nat) returns (found: bool)
      requires Valid()
      modifies this
      ensures Valid()
      ensures found == HasPk(old(quotes), pk)
      ensures quotes == WithoutPk(old(quotes), pk)
      ensures items == WithoutItemsOf(old(items), pk)
      ensures !HasPk(quotes, pk) && ItemsOf(items, pk) == []
    {
      found := HasPk(quotes, pk);
      FilterKeepsNumbering(quotes, NotPk(pk));
      FilterKeepsItems(items, quotes, NotOf(pk));
      CascadeKeepsReferences(quotes, items, pk);
      quotes, items := WithoutPk(quotes, pk), WithoutItemsOf(items, pk);
    }

    /** `Cotizacion.objects.all().delete()` (with the items it cascades to), as
        the reset script does: the next number assigned is 1 again. */
    method DeleteAll()
      requires Valid()
      modifies this
      ensures Valid() && quotes == [] && items == []
      ensures NextNumero(quotes) == 1
    {
      quotes, items := [], [];
    }

    /** `Cotizacion.objects.all()` under `ordering = ['-numero']`. */
    function Listing(): (r: seq<Row<Quotation>>)
      reads this
      ensures multiset(r) == multiset(quotes)
      ensures forall i, j :: 0 <= i < j < |r| ==> r[i].val.numero >= r[j].val.numero
    {
      var s := SortBy(quotes, (q: Row<Quotation>) => -(q.val.numero as int));
      assert forall i, j :: 0 <= i < j < |s| ==> -(s[i].val.numero as int) <= -(s[j].val.numero as int);
      s
    }

    /** `cotizacion.items.all()` under `ordering = ['item_numero']`. */
    function ItemsInOrder(pk: nat): (r: seq<Row<Item>>)
      reads this
      ensures multiset(r) == multiset(ItemsOf(items, pk))
      ensures forall i, j :: 0 <= i < j < |r| ==> r[i].val.itemNumero <= r[j].val.itemNumero
    {
      var s := SortBy(ItemsOf(items, pk), (it: Row<Item>) => it.val.itemNumero);
      assert forall i, j :: 0 <= i < j < |s| ==> s[i].val.itemNumero <= s[j].val.itemNumero;
      s
    }
  }
}
