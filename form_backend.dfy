/** The form's running totals (CrearCotizacion.jsx) against the totals the
    backend recomputes when the same items are stored (models.py,
    calcular_totales): with exact arithmetic they coincide. */
module FormBackend {
  import opened Tax
  import opened QuotationStore
  import opened QuoteForm

  /** A stored item row carries the quantity and unit price of a form row, with
      the total its save wrote. */
  predicate SameLine(row: Row<Item>, f: FormItem) {
    row.val.cantidad as real == f.cantidad && row.val.valorUnitario == f.precioUnitario && TotalIsLine(row.val)
  }

  predicate Corresponds(rows: seq<Row<Item>>, fs: seq<FormItem>) {
    |rows| == |fs| && forall i :: 0 <= i < |fs| ==> SameLine(rows[i], fs[i])
  }

  /** The backend's sum of item totals is the form's reduce over the same lines. */
  lemma {:induction false} SumMatchesSubtotal(rows: seq<Row<Item>>, fs: seq<FormItem>)
    requires Corresponds(rows, fs)
    ensures SumTotals(rows) == Subtotal(fs)
  {
    if fs != [] {
      assert Corresponds(rows[1..], fs[1..]) by {
        forall i | 0 <= i < |fs[1..]| ensures SameLine(rows[1..][i], fs[1..][i]) {
          assert SameLine(rows[i + 1], fs[i + 1]);
        }
      }
      SumMatchesSubtotal(rows[1..], fs[1..]);
      assert fs == [fs[0]] + fs[1..];
      SubtotalConcat([fs[0]], fs[1..]);
      SubtotalSingle(fs[0]);
      assert SameLine(rows[0], fs[0]);
    }
  }

  /** For the same items, the subtotal, IVA and total the form shows are the ones
      calcular_totales computes for the stored quotation. */
  lemma FormMatchesBackend(items: seq<Row<Item>>, pk: nat, fs: seq<FormItem>)
    requires Corresponds(ItemsOf(items, pk), fs)
    ensures CalcularTotales(items, pk) == FormTotals(fs)
  {
    SumMatchesSubtotal(ItemsOf(items, pk), fs);
  }
}
