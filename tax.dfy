/** The 19 % IVA rule that the backend (models.py) and both quote forms
    (CrearCotizacion.jsx, Home.jsx) apply to a subtotal. Amounts are exact
    reals: the backend's Decimal and the front end's numbers, without rounding. */
module Tax {

  /** The IVA rate, 19 %. */
  const IvaRate: real := 0.19

  datatype Totals = Totals(subtotal: real, iva: real, total: real)

  const Zero: Totals := Totals(0.0, 0.0, 0.0)

  /** iva = subtotal × 0.19 and total = subtotal + iva. */
  function WithIva(subtotal: real): (t: Totals)
    ensures t.subtotal == subtotal
    ensures t.total == t.subtotal + t.iva
    ensures t.total == subtotal * 1.19
    ensures subtotal >= 0.0 ==> 0.0 <= t.iva <= t.subtotal <= t.total
    ensures t == Zero <==> subtotal == 0.0
  {
    var iva := subtotal * IvaRate;
    Totals(subtotal, iva, subtotal + iva)
  }

  /** Totals are consistent when they follow the 19 % rule. */
  predicate Consistent(t: Totals) {
    t.iva == t.subtotal * IvaRate && t.total == t.subtotal + t.iva
  }

  /** WithIva is the only consistent triple with a given subtotal. */
  lemma ConsistentIsWithIva(t: Totals)
    ensures Consistent(t) <==> t == WithIva(t.subtotal)
  {
  }
}
