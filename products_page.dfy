// The product catalogue page: CSV export with the quoting of section 2
// (rules 6 and 7) of RFC 4180, the CSV import that turns every data line into
// a product or an error, and the stock filter of the product list.
module ProductsPage {
  import opened Common

  // ---------------------------------------------------------------------
  // escapeCsvValue
  // ---------------------------------------------------------------------

  /** A field needs quoting when it holds a double quote, a comma or a line feed. */
  predicate NeedsQuoting(text: string)
  {
    '"' in text || ',' in text || '\n' in text
  }

  /** `text.replace(/"/g, '""')`. */
  function DoubleQuotes(text: string): (r: string)
    ensures |r| >= |text|
    decreases |text|
  {
    if text == [] then []
    else (if text[0] == '"' then "\"\"" else [text[0]]) + DoubleQuotes(text[1..])
  }

  /** Every double quote stands in a pair, as inside a quoted RFC 4180 field. */
  predicate QuotesPaired(s: string)
    decreases |s|
  {
    if s == [] then true
    else if s[0] == '"' then |s| >= 2 && s[1] == '"' && QuotesPaired(s[2..])
    else QuotesPaired(s[1..])
  }

  /** The field as written to the file. */
  function EscapeCsvValue(text: string): (r: string)
    ensures !NeedsQuoting(text) ==> r == text
    ensures NeedsQuoting(text) ==>
      |r| >= 2 && r[0] == '"' && r[|r| - 1] == '"' && QuotesPaired(r[1..|r| - 1])
  {
    if NeedsQuoting(text) then
      DoubleQuotesPaired(text);
      "\"" + DoubleQuotes(text) + "\""
    else text
  }

  lemma {:induction false} DoubleQuotesPaired(text: string)
    ensures QuotesPaired(DoubleQuotes(text))
    decreases |text|
  {
    if text != [] {
      DoubleQuotesPaired(text[1..]);
      var d := DoubleQuotes(text);
      if text[0] == '"' {
        assert d == "\"\"" + DoubleQuotes(text[1..]);
        assert d[2..] == DoubleQuotes(text[1..]);
      } else {
        assert d == [text[0]] + DoubleQuotes(text[1..]);
        assert d[1..] == DoubleQuotes(text[1..]);
      }
    }
  }

  /** Reading a quoted field's content: every `""` stands for one `"`. */
  function Undouble(s: string): string
    decreases |s|
  {
    if |s| >= 2 && s[0] == '"' && s[1] == '"' then "\"" + Undouble(s[2..])
    else if s == [] then []
    else [s[0]] + Undouble(s[1..])
  }

  /** Reading a field: a quoted one loses its quotes and its doubled quotes. */
  function Unquote(field: string): string
  {
    if |field| >= 2 && field[0] == '"' && field[|field| - 1] == '"' then Undouble(field[1..|field| - 1])
    else field
  }

  lemma {:induction false} UndoubleDoubleQuotes(text: string)
    ensures Undouble(DoubleQuotes(text)) == text
    decreases |text|
  {
    if text != [] {
      UndoubleDoubleQuotes(text[1..]);
      var d := DoubleQuotes(text);
      if text[0] == '"' {
        assert d == "\"\"" + DoubleQuotes(text[1..]);
        assert d[2..] == DoubleQuotes(text[1..]);
      } else {
        assert d == [text[0]] + DoubleQuotes(text[1..]);
        assert d[1..] == DoubleQuotes(text[1..]);
        assert !(|d| >= 2 && d[0] == '"');
      }
      assert text == [text[0]] + text[1..];
    }
  }

  /** Reading back an escaped field gives the original text. */
  lemma EscapeRoundTrip(text: string)
    ensures Unquote(EscapeCsvValue(text)) == text
  {
    if NeedsQuoting(text) {
      var r := EscapeCsvValue(text);
      assert r[1..|r| - 1] == DoubleQuotes(text);
      UndoubleDoubleQuotes(text);
    } else {
      assert text == [] || text[0] != '"';
    }
  }

  lemma {:induction false} DoubleQuotesKeepsOtherChars(text: string, c: char)
    requires c != '"' && c !in text
    ensures c !in DoubleQuotes(text)
    decreases |text|
  {
    if text != [] { DoubleQuotesKeepsOtherChars(text[1..], c); }
  }

  /** Escaping adds no line feed, so a field without one stays on its line. */
  lemma EscapeAddsNoLineFeed(text: string)
    requires '\n' !in text
    ensures '\n' !in EscapeCsvValue(text)
  {
    if NeedsQuoting(text) { DoubleQuotesKeepsOtherChars(text, '\n'); }
  }

  // ---------------------------------------------------------------------
  // Export
  // ---------------------------------------------------------------------

  datatype Product = Product(
    name: string, sku: string, price: real, stockQuantity: int,
    category: Option<string>, description: Option<string>, isActive: bool)

  const EXPORT_COLUMNS: seq<string> := ["name", "sku", "price", "stock_quantity", "category", "description", "is_active"]

  /** `headers.join(',')`. */
  const EXPORT_HEADER: string := Join(EXPORT_COLUMNS, ",")

  /** The seven raw fields of a product, in the export's column order. */
  function ExportFields(p: Product, priceText: real -> string): (r: seq<string>)
    ensures |r| == 7
  {
    [p.name, p.sku, priceText(p.price), IntToString(p.stockQuantity),
     GetOr(p.category, ""), GetOr(p.description, ""), if p.isActive then "true" else "false"]
  }

  function ExportRow(p: Product, priceText: real -> string): string
  {
    var f := ExportFields(p, priceText);
    Join(seq(7, i requires 0 <= i < 7 => EscapeCsvValue(f[i])), ",")
  }

  /**
   * The exported file: the header line, then one line per product. The
   * rendering of a price as text is a parameter.
   */
  function ExportCsv(products: seq<Product>, priceText: real -> string): string
  {
    Join([EXPORT_HEADER] + seq(|products|, i requires 0 <= i < |products| => ExportRow(products[i], priceText)), "\n")
  }

  predicate SingleLineProduct(p: Product, priceText: real -> string)
  {
    forall i :: 0 <= i < 7 ==> '\n' !in ExportFields(p, priceText)[i]
  }

  /** Only lower-case letters and underscores. */
  predicate IsIdentifier(s: string)
  {
    forall j :: 0 <= j < |s| ==> IsLowerAscii(s[j]) || s[j] == '_'
  }

  lemma {:induction false} JoinKeepsOut(parts: seq<string>, sep: string, c: char)
    requires c !in sep && forall i :: 0 <= i < |parts| ==> c !in parts[i]
    ensures c !in Join(parts, sep)
    decreases |parts|
  {
    if |parts| > 1 { JoinKeepsOut(parts[1..], sep, c); }
  }

  lemma ExportRowSingleLine(p: Product, priceText: real -> string)
    requires SingleLineProduct(p, priceText)
    ensures '\n' !in ExportRow(p, priceText)
  {
    var f := ExportFields(p, priceText);
    var escaped := seq(7, i requires 0 <= i < 7 => EscapeCsvValue(f[i]));
    forall i | 0 <= i < 7 ensures '\n' !in escaped[i] { EscapeAddsNoLineFeed(f[i]); }
    JoinKeepsOut(escaped, ",", '\n');
  }

  /**
   * When no field holds a line feed, the file has exactly the header line and
   * one line per product, in order.
   */
  lemma ExportLines(products: seq<Product>, priceText: real -> string)
    requires forall i :: 0 <= i < |products| ==> SingleLineProduct(products[i], priceText)
    ensures var lines := Split(ExportCsv(products, priceText), '\n');
      && |lines| == |products| + 1
      && lines[0] == EXPORT_HEADER
      && forall i :: 0 <= i < |products| ==> lines[i + 1] == ExportRow(products[i], priceText)
  {
    var parts := [EXPORT_HEADER] + seq(|products|, i requires 0 <= i < |products| => ExportRow(products[i], priceText));
    forall i | 0 <= i < |parts| ensures '\n' !in parts[i] {
      if i > 0 {
        ExportRowSingleLine(products[i - 1], priceText);
      } else {
        HeaderSingleLine();
      }
    }
    SplitJoin(parts, '\n');
  }

  /** The header is one line. */
  lemma HeaderSingleLine()
    ensures '\n' !in EXPORT_HEADER
  {
    forall k | 0 <= k < |EXPORT_COLUMNS| ensures '\n' !in EXPORT_COLUMNS[k] {
      assert IsIdentifier(EXPORT_COLUMNS[k]);
    }
    JoinKeepsOut(EXPORT_COLUMNS, ",", '\n');
  }

  // ---------------------------------------------------------------------
  // Import: parseCsv
  // ---------------------------------------------------------------------

  const NO_DATA: string := "Arquivo CSV sem dados."

  /** A line without its final carriage return. */
  function DropCR(line: string): (r: string)
    ensures r <= line
  {
    if line != [] && line[|line| - 1] == '\r' then line[..|line| - 1] else line
  }

  /** `content.split(/\r?\n/)`: split at line feeds, a carriage return before one belongs to the break. */
  function SplitLines(content: string): (r: seq<string>)
    ensures |r| == |Split(content, '\n')|
  {
    var pieces := Split(content, '\n');
    seq(|pieces|, i requires 0 <= i < |pieces| => if i < |pieces| - 1 then DropCR(pieces[i]) else pieces[i])
  }

  predicate NotBlank(line: string) { Trim(line) != [] }

  /** The non-blank lines of the file. */
  function Lines(content: string): seq<string>
  {
    Filter(SplitLines(content), NotBlank)
  }

  /** `;` when the header line has one, else `,`. */
  function Delimiter(header: string): (d: char)
    ensures d == ';' <==> ';' in header
    ensures d == ',' <==> ';' !in header
  {
    if ';' in header then ';' else ','
  }

  /** Header names, trimmed and lower-cased. */
  function Headers(header: string, d: char): (r: seq<string>)
    ensures |r| == |Split(header, d)|
    ensures forall i :: 0 <= i < |r| ==> r[i] == Lower(Trim(Split(header, d)[i]))
  {
    var parts := Split(header, d);
    seq(|parts|, i requires 0 <= i < |parts| => Lower(Trim(parts[i])))
  }

  /** The trimmed values of a data line. */
  function Values(line: string, d: char): (r: seq<string>)
    ensures |r| == |Split(line, d)|
  {
    var parts := Split(line, d);
    seq(|parts|, i requires 0 <= i < |parts| => Trim(parts[i]))
  }

  /** `values[colIndex] || ''`. */
  function ValueAt(values: seq<string>, i: nat): string
  {
    if i < |values| then values[i] else ""
  }

  /** The record after the first `n` columns are assigned; a repeated header keeps its last value. */
  function RecordOf(headers: seq<string>, values: seq<string>, n: nat): map<string, string>
    requires n <= |headers|
  {
    if n == 0 then map[] else RecordOf(headers, values, n - 1)[headers[n - 1] := ValueAt(values, n - 1)]
  }

  /** The record has a key for every header and no other. */
  lemma {:induction false} RecordOfKeys(headers: seq<string>, values: seq<string>, n: nat)
    requires n <= |headers|
    ensures forall h :: h in RecordOf(headers, values, n) <==> h in headers[..n]
  {
    if n > 0 {
      RecordOfKeys(headers, values, n - 1);
      assert headers[..n] == headers[..n - 1] + [headers[n - 1]];
    }
  }

  /** A header's value is the value of its last column. */
  lemma {:induction false} RecordOfLastWins(headers: seq<string>, values: seq<string>, n: nat, i: nat)
    requires i < n <= |headers|
    requires forall j :: i < j < n ==> headers[j] != headers[i]
    ensures headers[i] in RecordOf(headers, values, n)
    ensures RecordOf(headers, values, n)[headers[i]] == ValueAt(values, i)
  {
    if n - 1 != i { RecordOfLastWins(headers, values, n - 1, i); }
  }

  /** The per-line `data` record, filled column by column as `headers.forEach` does. */
  method BuildRecord(headers: seq<string>, values: seq<string>) returns (data: map<string, string>)
    ensures data == RecordOf(headers, values, |headers|)
  {
    data := map[];
    var col := 0;
    while col < |headers|
      invariant col <= |headers|
      invariant data == RecordOf(headers, values, col)
    {
      data := data[headers[col] := if col < |values| then values[col] else ""];
      col := col + 1;
    }
  }

  /** `data.key || ''`. */
  function Field(data: map<string, string>, key: string): string
  {
    if key in data then data[key] else ""
  }

  /** `is_active`: true unless the text is `false` in any letter case; empty means true. */
  function ActiveFlag(text: string): (r: bool)
    ensures !r <==> Lower(text) == "false"
  {
    if text != "" then Lower(text) != "false" else true
  }

  datatype CsvProduct = CsvProduct(
    name: string, sku: string, description: string, category: string,
    price: real, stockQuantity: int, isActive: bool)

  datatype LineOutcome = RowOk(row: CsvProduct) | RowError(message: string)

  function MissingFieldsError(index: nat): string
  {
    "Linha " + NatToString(index + 2) + ": nome e SKU s?o obrigat?rios."
  }

  /** The product a record describes, once name and SKU are known to be present. */
  function RowOf(data: map<string, string>): CsvProduct
  {
    var priceText := if Field(data, "price") != "" then Field(data, "price") else "0";
    var stockText := if Field(data, "stock_quantity") != "" then Field(data, "stock_quantity") else "0";
    CsvProduct(
      Field(data, "name"), Field(data, "sku"), Field(data, "description"), Field(data, "category"),
      GetOr(ParseFloat(priceText), 0.0), GetOr(ParseInt(stockText), 0), ActiveFlag(Field(data, "is_active")))
  }

  /** Data line number `index` (0 for the line after the header). */
  function ParseLine(headers: seq<string>, line: string, d: char, index: nat): (r: LineOutcome)
    ensures var data := RecordOf(headers, Values(line, d), |headers|);
      r.RowError? <==> Field(data, "name") == "" || Field(data, "sku") == ""
    ensures r.RowError? ==> r.message == MissingFieldsError(index)
    ensures r.RowOk? ==> r.row.name != "" && r.row.sku != ""
  {
    var data := RecordOf(headers, Values(line, d), |headers|);
    if Field(data, "name") == "" || Field(data, "sku") == "" then RowError(MissingFieldsError(index))
    else RowOk(RowOf(data))
  }

  /** The outcome of every data line, in order. */
  function Outcomes(lines: seq<string>): (r: seq<LineOutcome>)
    requires |lines| >= 1
    ensures |r| == |lines| - 1
  {
    var d := Delimiter(lines[0]);
    var headers := Headers(lines[0], d);
    seq(|lines| - 1, i requires 0 <= i < |lines| - 1 => ParseLine(headers, lines[i + 1], d, i))
  }

  function RowsOf(outs: seq<LineOutcome>): seq<CsvProduct>
  {
    if outs == [] then []
    else RowsOf(outs[..|outs| - 1]) + (match outs[|outs| - 1] case RowOk(p) => [p] case RowError(_) => [])
  }

  function ErrorsOf(outs: seq<LineOutcome>): seq<string>
  {
    if outs == [] then []
    else ErrorsOf(outs[..|outs| - 1]) + (match outs[|outs| - 1] case RowOk(_) => [] case RowError(e) => [e])
  }

  /** Every data line gives exactly one row or exactly one error. */
  lemma {:induction false} RowsPlusErrors(outs: seq<LineOutcome>)
    ensures |RowsOf(outs)| + |ErrorsOf(outs)| == |outs|
  {
    if outs != [] { RowsPlusErrors(outs[..|outs| - 1]); }
  }

  /**
   * `parseCsv`: fewer than two non-blank lines give the single error
   * `NO_DATA`; otherwise the header fixes delimiter and column names and each
   * data line is pushed to `rows` or to `errors`.
   */
  method ParseCsv(content: string) returns (rows: seq<CsvProduct>, errors: seq<string>)
    ensures |Lines(content)| < 2 ==> rows == [] && errors == [NO_DATA]
    ensures |Lines(content)| >= 2 ==>
      && rows == RowsOf(Outcomes(Lines(content)))
      && errors == ErrorsOf(Outcomes(Lines(content)))
      && |rows| + |errors| == |Lines(content)| - 1
  {
    var lines := Lines(content);
    if |lines| < 2 {
      return [], [NO_DATA];
    }
    var d := if ';' in lines[0] then ';' else ',';
    var headers := Headers(lines[0], d);
    ghost var outs := Outcomes(lines);
    rows, errors := [], [];
    var index := 0;
    while index < |lines| - 1
      invariant index <= |lines| - 1
      invariant rows == RowsOf(outs[..index]) && errors == ErrorsOf(outs[..index])
    {
      var line := lines[index + 1];
      var values := Values(line, d);
      var data := BuildRecord(headers, values);
      var name := Field(data, "name");
      var sku := Field(data, "sku");
      OutcomesStep(outs, index);
      assert outs[index] == ParseLine(headers, line, d, index);
      if name == "" || sku == "" {
        errors := errors + [MissingFieldsError(index)];
      } else {
        rows := rows + [RowOf(data)];
      }
      index := index + 1;
    }
    assert outs[..|lines| - 1] == outs;
    RowsPlusErrors(outs);
  }

  /** Appending one outcome appends its row or its error. */
  lemma OutcomesStep(outs: seq<LineOutcome>, index: nat)
    requires index < |outs|
    ensures RowsOf(outs[..index + 1]) == RowsOf(outs[..index]) + (if outs[index].RowOk? then [outs[index].row] else [])
    ensures ErrorsOf(outs[..index + 1]) == ErrorsOf(outs[..index]) + (if outs[index].RowError? then [outs[index].message] else [])
  {
    assert outs[..index + 1][..index] == outs[..index];
  }

  // ---------------------------------------------------------------------
  // Stock filter
  // ---------------------------------------------------------------------

  const LOW_STOCK_THRESHOLD: int := 5

  datatype StockFilter = AllStock | InStock | OutOfStock | LowStock

  predicate KeepsStock(f: StockFilter, qty: int)
  {
    match f
    case AllStock => true
    case OutOfStock => qty <= 0
    case LowStock => 0 < qty <= LOW_STOCK_THRESHOLD
    case InStock => qty > 0
  }

  /** `filteredProducts`. */
  function FilteredProducts(products: seq<Product>, f: StockFilter): (r: seq<Product>)
    ensures |r| <= |products|
    ensures f == AllStock ==> r == products
  {
    if f == AllStock then products else Filter(products, (p: Product) => KeepsStock(f, p.stockQuantity))
  }

  /** A product is listed exactly when it is one of the products and its quantity passes the filter. */
  lemma FilteredProductsMembership(products: seq<Product>, f: StockFilter, p: Product)
    ensures p in FilteredProducts(products, f) <==> p in products && KeepsStock(f, p.stockQuantity)
  {
    if f != AllStock {
      FilterMembership(products, (p: Product) => KeepsStock(f, p.stockQuantity), p);
    }
  }

  /** The filter keeps order: filtering a concatenation filters each part. */
  lemma FilteredProductsAppend(a: seq<Product>, b: seq<Product>, f: StockFilter)
    ensures FilteredProducts(a + b, f) == FilteredProducts(a, f) + FilteredProducts(b, f)
  {
    if f != AllStock { FilterAppend(a, b, (p: Product) => KeepsStock(f, p.stockQuantity)); }
  }

  /** Every product is either out of stock or in stock, never both. */
  lemma StockPartition(products: seq<Product>)
    ensures |FilteredProducts(products, OutOfStock)| + |FilteredProducts(products, InStock)| == |products|
  {
    var outOf := (p: Product) => KeepsStock(OutOfStock, p.stockQuantity);
    var inStock := (p: Product) => KeepsStock(InStock, p.stockQuantity);
    CountComplement(products, outOf, inStock);
    CountIsFilterLength(products, outOf);
    CountIsFilterLength(products, inStock);
  }
}
