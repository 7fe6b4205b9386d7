/** The parts of the quotation PDF (cotizacion/pdf_generator.py) that are plain
    computation: the money amounts written as "$" and digits grouped by ".", the
    rows of the items table, the totals rows, the closing sections and the file
    name. Amounts are whole pesos; cells are the text of their paragraphs. */
module PdfReport {
  import opened Seqs
  import opened Text

  // --------------------------------------------------------------- money

  /** The three digits of k, with leading zeros. */
  function Pad3(k: nat): (s: string)
    requires k < 1000
    ensures |s| == 3 && forall i :: 0 <= i < 3 ==> '0' <= s[i] <= '9'
  {
    [DigitChar(k / 100), DigitChar(k / 10 % 10), DigitChar(k % 10)]
  }

  /** Python's `format(n, ",")` with the group separator sep: groups of three
      digits from the right. */
  function Grouped(n: nat, sep: char): string {
    if n < 1000 then Digits(n) else Grouped(n / 1000, sep) + [sep] + Pad3(n % 1000)
  }

  /** `str.replace(a, b)` for single characters. */
  function ReplaceAll(s: string, a: char, b: char): (r: string)
    ensures |r| == |s|
    ensures forall i :: 0 <= i < |s| ==> r[i] == if s[i] == a then b else s[i]
  {
    seq(|s|, i requires 0 <= i < |s| => if s[i] == a then b else s[i])
  }

  /** `f"${x:,.0f}".replace(',', '.')` for a whole amount x. */
  function FormatMoney(n: nat): string {
    ReplaceAll("$" + Grouped(n, ','), ',', '.')
  }

  /** The TOTAL cell: `f"<b>${x:,.0f}</b>".replace(',', '.')`. */
  function FormatBoldMoney(n: nat): string {
    ReplaceAll("<b>$" + Grouped(n, ',') + "</b>", ',', '.')
  }

  /** The digit groups of n, most significant first. */
  function Groups(n: nat): (g: seq<string>)
    ensures |g| >= 1
  {
    if n < 1000 then [Digits(n)] else Groups(n / 1000) + [Pad3(n % 1000)]
  }

  lemma ReplaceConcat(a: string, b: string, x: char, y: char)
    ensures ReplaceAll(a + b, x, y) == ReplaceAll(a, x, y) + ReplaceAll(b, x, y)
  {
    assert forall i :: 0 <= i < |b| ==> (a + b)[|a| + i] == b[i];
  }

  /** Replacing a character a string does not hold changes nothing. */
  lemma ReplaceAbsent(s: string, x: char, y: char)
    requires forall i :: 0 <= i < |s| ==> s[i] != x
    ensures ReplaceAll(s, x, y) == s
  {
  }

  /** Swapping the separator of a grouped number gives it with the other separator. */
  lemma {:induction false} GroupedReplace(n: nat, x: char, y: char)
    requires !('0' <= x <= '9')
    ensures ReplaceAll(Grouped(n, x), x, y) == Grouped(n, y)
  {
    if n >= 1000 {
      GroupedReplace(n / 1000, x, y);
      ReplaceConcat(Grouped(n / 1000, x) + [x], Pad3(n % 1000), x, y);
      ReplaceConcat(Grouped(n / 1000, x), [x], x, y);
      ReplaceAbsent(Pad3(n % 1000), x, y);
    } else {
      ReplaceAbsent(Digits(n), x, y);
    }
  }

  /** A rendered amount is "$" and the digits of n grouped by ".". */
  lemma FormatMoneyIsDotGrouped(n: nat)
    ensures FormatMoney(n) == "$" + Grouped(n, '.')
  {
    ReplaceConcat("$", Grouped(n, ','), ',', '.');
    ReplaceAbsent("$", ',', '.');
    GroupedReplace(n, ',', '.');
  }

  /** The TOTAL cell is the same rendering inside bold tags. */
  lemma FormatBoldMoneyIsBold(n: nat)
    ensures FormatBoldMoney(n) == "<b>" + FormatMoney(n) + "</b>"
  {
    assert "<b>$" + Grouped(n, ',') + "</b>" == "<b>" + ("$" + Grouped(n, ',')) + "</b>";
    ReplaceConcat("<b>" + ("$" + Grouped(n, ',')), "</b>", ',', '.');
    ReplaceConcat("<b>", "$" + Grouped(n, ','), ',', '.');
    ReplaceAbsent("<b>", ',', '.');
    ReplaceAbsent("</b>", ',', '.');
  }

  /** The grouped digits are the groups joined by the separator. */
  lemma {:induction false} GroupedIsJoin(n: nat, sep: char)
    ensures Grouped(n, sep) == Join(Groups(n), sep)
  {
    if n >= 1000 {
      GroupedIsJoin(n / 1000, sep);
      JoinSnoc(Groups(n / 1000), Pad3(n % 1000), sep);
    }
  }

  /** The first group has one to three digits and every later group exactly
      three; there is more than one group exactly when n is 1000 or more. */
  lemma {:induction false} GroupsShape(n: nat)
    ensures 1 <= |Groups(n)[0]| <= 3
    ensures forall i :: 1 <= i < |Groups(n)| ==> |Groups(n)[i]| == 3
    ensures forall i, j :: 0 <= i < |Groups(n)| && 0 <= j < |Groups(n)[i]| ==> '0' <= Groups(n)[i][j] <= '9'
    ensures |Groups(n)| == 1 <==> n < 1000
  {
    if n < 1000 {
      assert n < 10 || n / 10 < 10 || n / 100 < 10;
      DigitsLength(n);
    } else {
      GroupsShape(n / 1000);
      assert Groups(n)[0] == Groups(n / 1000)[0];
    }
  }

  /** Below 1000 the decimal rendering has at most three digits. */
  lemma DigitsLength(n: nat)
    requires n < 1000
    ensures |Digits(n)| <= 3
  {
    if n >= 10 {
      assert |Digits(n)| == |Digits(n / 10)| + 1;
      if n / 10 >= 10 {
        assert |Digits(n / 10)| == |Digits(n / 100)| + 1;
      }
    }
  }

  /** Every rendered amount is "$" followed by its digit groups joined by ".",
      holds no ",", and holds a "." only from 1000 on. */
  lemma MoneyShape(n: nat)
    ensures FormatMoney(n) == "$" + Join(Groups(n), '.')
    ensures ',' !in FormatMoney(n)
    ensures n < 1000 <==> '.' !in FormatMoney(n)
  {
    FormatMoneyIsDotGrouped(n);
    GroupedIsJoin(n, '.');
    var g := Grouped(n, '.');
    GroupedChars(n, '.');
    if n >= 1000 {
      assert g[|Grouped(n / 1000, '.')|] == '.';
      assert FormatMoney(n)[1 + |Grouped(n / 1000, '.')|] == '.';
    } else {
      assert forall i :: 0 <= i < |g| ==> '0' <= g[i] <= '9';
    }
  }

  /** A grouped number holds only digits and the separator. */
  lemma {:induction false} GroupedChars(n: nat, sep: char)
    ensures forall i :: 0 <= i < |Grouped(n, sep)| ==> Grouped(n, sep)[i] == sep || '0' <= Grouped(n, sep)[i] <= '9'
  {
    if n >= 1000 {
      GroupedChars(n / 1000, sep);
      var a := Grouped(n / 1000, sep);
      var p := Pad3(n % 1000);
      assert Grouped(n, sep) == a + [sep] + p;
      assert forall i :: |a| + 1 <= i < |a| + 1 + |p| ==> Grouped(n, sep)[i] == p[i - |a| - 1];
    }
  }

  /** From a thousand on the decimal rendering splits into the thousands and the
      last three digits. */
  lemma DigitsSplit(n: nat)
    requires n >= 1000
    ensures Digits(n) == Digits(n / 1000) + Pad3(n % 1000)
  {
    var q, r := n / 1000, n % 1000;
    assert n / 10 == 100 * q + r / 10 && n / 10 % 10 == r / 10 % 10 && n % 10 == r % 10;
    assert n / 10 / 10 == 10 * q + r / 100 && n / 10 / 10 % 10 == r / 100;
    assert n / 10 / 10 / 10 == q;
    assert Digits(n) == Digits(n / 10) + [DigitChar(n % 10)];
    assert Digits(n / 10) == Digits(n / 10 / 10) + [DigitChar(n / 10 % 10)];
    assert Digits(n / 10 / 10) == Digits(q) + [DigitChar(n / 10 / 10 % 10)];
  }

  function IsNotDot(c: char): bool {
    c != '.'
  }

  /** Dropping the separators of the dot-grouped number leaves its plain digits. */
  lemma {:induction false} StripGroupSeparators(n: nat)
    ensures Filter(Grouped(n, '.'), IsNotDot) == Digits(n)
  {
    if n >= 1000 {
      StripGroupSeparators(n / 1000);
      var a, p := Grouped(n / 1000, '.'), Pad3(n % 1000);
      assert Grouped(n, '.') == (a + ['.']) + p;
      FilterConcat(a + ['.'], p, IsNotDot);
      FilterConcat(a, ['.'], IsNotDot);
      FilterNone(['.'], IsNotDot);
      FilterAll(p, IsNotDot);
      assert Filter(a + ['.'], IsNotDot) == Digits(n / 1000);
      assert Filter(Grouped(n, '.'), IsNotDot) == Digits(n / 1000) + p;
      DigitsSplit(n);
    } else {
      FilterAll(Digits(n), IsNotDot);
    }
  }

  /** Removing the "$" and every "." from a rendered amount gives the decimal
      digits of the amount, which read back as the amount itself. */
  lemma MoneyDigits(n: nat)
    ensures FormatMoney(n)[0] == '$'
    ensures Filter(FormatMoney(n)[1..], IsNotDot) == Digits(n)
    ensures ValueOf(Filter(FormatMoney(n)[1..], IsNotDot)) == n
  {
    FormatMoneyIsDotGrouped(n);
    assert FormatMoney(n)[1..] == Grouped(n, '.');
    StripGroupSeparators(n);
    ValueOfDigits(n);
  }

  /** Two amounts render the same only when they are equal. */
  lemma MoneyInjective(a: nat, b: nat)
    requires FormatMoney(a) == FormatMoney(b)
    ensures a == b
  {
    MoneyDigits(a);
    MoneyDigits(b);
  }

  // ---------------------------------------------------------- items table

  /** An item as the PDF reads it, amounts in whole pesos. */
  datatype PdfItem = PdfItem(itemNumero: nat, caracteristica: string, cantidad: nat, valorUnitario: nat, total: nat)

  /** The bold header row of the items table. */
  function ItemsHeader(): (h: seq<string>)
    ensures |h| == 5
  {
    ["<b>Ítem</b>", "<b>Descripción</b>", "<b>Cant.</b>", "<b>V. Unitario</b>", "<b>Total</b>"]
  }

  /** The five cells of an item's row. */
  function ItemRow(it: PdfItem): (row: seq<string>)
    ensures |row| == 5
  {
    [Digits(it.itemNumero), it.caracteristica, Digits(it.cantidad), FormatMoney(it.valorUnitario), FormatMoney(it.total)]
  }

  /** The `for item in cotizacion.items.all()` loop: the header row, then one row
      per item, in the order the items come. */
  method BuildItemRows(items: seq<PdfItem>) returns (rows: seq<seq<string>>)
    ensures |rows| == |items| + 1
    ensures rows[0] == ItemsHeader()
    ensures forall i :: 0 <= i < |items| ==> rows[i + 1] == ItemRow(items[i])
    ensures forall i :: 0 <= i < |rows| ==> |rows[i]| == 5
  {
    rows := [ItemsHeader()];
    var k := 0;
    while k < |items|
      invariant 0 <= k <= |items|
      invariant |rows| == k + 1 && rows[0] == ItemsHeader()
      invariant forall i :: 0 <= i < k ==> rows[i + 1] == ItemRow(items[i])
    {
      rows := rows + [ItemRow(items[k])];
      k := k + 1;
    }
    forall i | 1 <= i < |rows| ensures |rows[i]| == 5 {
      assert rows[i] == ItemRow(items[i - 1]);
    }
  }

  /** The three totals rows: net value, IVA and the bold total. */
  function TotalsRows(subtotal: nat, iva: nat, total: nat): (rows: seq<seq<string>>)
    ensures |rows| == 3 && forall i :: 0 <= i < 3 ==> |rows[i]| == 3 && rows[i][0] == ""
    ensures rows[0][2] == FormatMoney(subtotal) && rows[1][2] == FormatMoney(iva)
    ensures rows[2][2] == "<b>" + FormatMoney(total) + "</b>"
  {
    FormatBoldMoneyIsBold(total);
    [["", "<b>Valor Neto Total</b>", FormatMoney(subtotal)],
     ["", "<b>IVA (19%)</b>", FormatMoney(iva)],
     ["", "<b>TOTAL</b>", FormatBoldMoney(total)]]
  }

  // ------------------------------------------------------ closing sections

  /** A flowable of the document story. */
  datatype Block = Heading(text: string) | Para(text: string) | Space

  const ObservacionesHeading: string := "<b>Observaciones</b>"

  /** The story after the totals: an Observaciones section when there are
      observations, then the delivery time section. */
  function ClosingBlocks(observaciones: string, tiempoEntrega: string): (b: seq<Block>)
    ensures observaciones != "" ==> |b| == 6 && b[..3] == [Heading(ObservacionesHeading), Para(observaciones), Space]
    ensures observaciones == "" ==> |b| == 3
    ensures b[|b| - 3..] == [Heading("<b>Tiempo de Entrega</b>"), Para(tiempoEntrega), Space]
    ensures Heading(ObservacionesHeading) in b <==> observaciones != ""
  {
    (if observaciones != "" then [Heading(ObservacionesHeading), Para(observaciones), Space] else [])
      + [Heading("<b>Tiempo de Entrega</b>"), Para(tiempoEntrega), Space]
  }

  // ------------------------------------------------------------- filename

  /** The attachment name: `f'cotizacion_{numero}.pdf'`. */
  function Filename(numero: nat): string {
    "cotizacion_" + Digits(numero) + ".pdf"
  }

  /** The number can be read back from the file name, so different quotations
      download under different names. */
  lemma FilenameNumber(numero: nat)
    ensures var f := Filename(numero);
      |f| > 15 && f[..11] == "cotizacion_" && f[|f| - 4..] == ".pdf"
      && ValueOf(f[11..|f| - 4]) == numero
  {
    var f := Filename(numero);
    assert f[11..|f| - 4] == Digits(numero);
    ValueOfDigits(numero);
  }

  lemma FilenameInjective(a: nat, b: nat)
    requires Filename(a) == Filename(b)
    ensures a == b
  {
    FilenameNumber(a);
    FilenameNumber(b);
  }
}
