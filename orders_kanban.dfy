// The orders board: seven status columns, the normalisation of the many
// status spellings the backends use onto those columns, the grouping of the
// orders into columns (newest first), the columns shown, and the board's own
// state: the local copy of the orders, the set of orders whose status change
// is in flight, and the card being dragged. A drag to another column changes
// the card's status at once and rolls it back when the server call fails.
module OrdersKanban {
  import opened Common

  /** The seven columns of the board. */
  datatype Column = Pending | Confirmed | Preparing | Ready | OutForDelivery | Delivered | Cancelled

  /** Number of columns; the board order is the order of `ORDER_STATUSES`. */
  const COLUMN_COUNT: nat := 7

  /** The `k`-th column of the board. */
  function ColumnAt(k: nat): Column
    requires k < COLUMN_COUNT
  {
    if k == 0 then Pending else if k == 1 then Confirmed else if k == 2 then Preparing
    else if k == 3 then Ready else if k == 4 then OutForDelivery else if k == 5 then Delivered
    else Cancelled
  }

  /** Position of a column on the board. */
  function BoardIndex(c: Column): (k: nat)
    ensures k < COLUMN_COUNT && ColumnAt(k) == c
  {
    match c
    case Pending => 0
    case Confirmed => 1
    case Preparing => 2
    case Ready => 3
    case OutForDelivery => 4
    case Delivered => 5
    case Cancelled => 6
  }

  lemma BoardIndexOfColumnAt(k: nat)
    requires k < COLUMN_COUNT
    ensures BoardIndex(ColumnAt(k)) == k
  {
  }

  /** The columns in board order. */
  const COLUMNS: seq<Column> := [Pending, Confirmed, Preparing, Ready, OutForDelivery, Delivered, Cancelled]

  /** The status id of a column. */
  function Id(c: Column): string
  {
    match c
    case Pending => "pending"
    case Confirmed => "confirmed"
    case Preparing => "preparing"
    case Ready => "ready"
    case OutForDelivery => "out_for_delivery"
    case Delivered => "delivered"
    case Cancelled => "cancelled"
  }

  /** The other spellings that land in a column. */
  function Aliases(c: Column): seq<string>
  {
    match c
    case Pending => ["pendente", "awaiting_payment"]
    case Confirmed => ["confirmado", "aprovado", "paid"]
    case Preparing => ["preparando", "processing"]
    case Ready => ["pronto", "ready_for_pickup", "ready_for_delivery"]
    case OutForDelivery => ["shipped", "enviado", "em_entrega", "delivering"]
    case Delivered => ["entregue", "completed"]
    case Cancelled => ["cancelado", "refunded"]
  }

  function Title(c: Column): string
  {
    match c
    case Pending => "Pendente"
    case Confirmed => "Confirmado"
    case Preparing => "Preparando"
    case Ready => "Pronto"
    case OutForDelivery => "Em Entrega"
    case Delivered => "Entregue"
    case Cancelled => "Cancelado"
  }

  /** One entry of `ORDER_STATUSES` (colours and icons left out). */
  datatype StatusConfig = StatusConfig(id: string, title: string, aliases: seq<string>)

  function Config(c: Column): StatusConfig
  {
    StatusConfig(Id(c), Title(c), Aliases(c))
  }

  lemma AllColumnsListed(c: Column)
    ensures c in COLUMNS
  {
    assert COLUMNS[BoardIndex(c)] == c;
  }

  /** `COLUMNS` lists the columns by their board index. */
  lemma ColumnsInBoardOrder(k: nat)
    requires k < |COLUMNS|
    ensures BoardIndex(COLUMNS[k]) == k
  {
  }

  lemma EveryColumnListed()
    ensures forall c :: c in COLUMNS
  {
    forall c ensures c in COLUMNS {
      AllColumnsListed(c);
    }
  }

  /** The fields of an order the board looks at; `createdAt` is `new Date(created_at).getTime()`. */
  datatype Order = Order(id: string, status: string, createdAt: int)

  // ---------------------------------------------------------------------
  // normalizeStatus / getStatusConfig
  // ---------------------------------------------------------------------

  predicate Matches(c: Column, normalized: string)
  {
    Id(c) == normalized || normalized in Aliases(c)
  }

  /** No column before `c` on the board matches `normalized`. */
  predicate FirstToMatch(c: Column, normalized: string)
  {
    Matches(c, normalized) && forall j :: 0 <= j < BoardIndex(c) ==> !Matches(ColumnAt(j), normalized)
  }

  /** The first column from position `k` on matching `normalized`, if any. */
  function FirstMatch(k: nat, normalized: string): Option<Column>
    requires k <= COLUMN_COUNT
    decreases COLUMN_COUNT - k
  {
    if k == COLUMN_COUNT then None
    else if Matches(ColumnAt(k), normalized) then Some(ColumnAt(k))
    else FirstMatch(k + 1, normalized)
  }

  /** The search returns a matching column with no match before it, and none only when nothing from `k` on matches. */
  lemma {:induction false} FirstMatchSpec(k: nat, normalized: string)
    requires k <= COLUMN_COUNT
    ensures var r := FirstMatch(k, normalized);
      && (r.None? <==> forall j :: k <= j < COLUMN_COUNT ==> !Matches(ColumnAt(j), normalized))
      && (r.Some? ==> k <= BoardIndex(r.value) && Matches(r.value, normalized))
      && (r.Some? ==> forall j :: k <= j < BoardIndex(r.value) ==> !Matches(ColumnAt(j), normalized))
    decreases COLUMN_COUNT - k
  {
    if k < COLUMN_COUNT {
      FirstMatchSpec(k + 1, normalized);
      BoardIndexOfColumnAt(k);
    }
  }

  /**
   * `normalizeStatus`: the status lower-cased, mapped to the first column
   * whose id or alias it is; anything unknown lands in 'pending'.
   */
  function NormalizedStatus(status: string): Column
  {
    match FirstMatch(0, Lower(status))
    case None => Pending
    case Some(c) => c
  }

  /**
   * The column found is the first on the board whose id or alias is the
   * lower-cased status; when there is none the status lands in 'pending'.
   */
  lemma NormalizedStatusMatches(status: string)
    ensures var r := NormalizedStatus(status);
      FirstToMatch(r, Lower(status)) || (r == Pending && forall c :: !Matches(c, Lower(status)))
  {
    FirstMatchSpec(0, Lower(status));
    if FirstMatch(0, Lower(status)).None? {
      forall c ensures !Matches(c, Lower(status)) {
        assert ColumnAt(BoardIndex(c)) == c;
      }
    }
  }

  /** The loop of `normalizeStatus`, over the configurations in board order. */
  method NormalizeStatus(status: string) returns (r: string)
    ensures r == Id(NormalizedStatus(status))
  {
    var normalized := Lower(status);
    var i := 0;
    while i < COLUMN_COUNT
      invariant 0 <= i <= COLUMN_COUNT
      invariant FirstMatch(0, normalized) == FirstMatch(i, normalized)
    {
      var s := ColumnAt(i);
      if Id(s) == normalized || normalized in Aliases(s) {
        return Id(s);
      }
      i := i + 1;
    }
    return "pending";
  }

  /** A string free of upper-case letters is its own lower-case form. */
  lemma LowerOfLowercase(s: string)
    requires forall i :: 0 <= i < |s| ==> !IsUpperLetter(s[i])
    ensures Lower(s) == s
  {
  }

  /** The search finds the first column to match. */
  lemma {:induction false} FirstMatchFinds(k: nat, normalized: string, c: Column)
    requires k <= BoardIndex(c)
    requires FirstToMatch(c, normalized)
    ensures FirstMatch(k, normalized) == Some(c)
    decreases COLUMN_COUNT - k
  {
    if k < BoardIndex(c) {
      FirstMatchFinds(k + 1, normalized, c);
    }
  }

  /** Lower-case spellings that the first column to match claims normalise to that column. */
  lemma NormalizeSpelling(c: Column, a: string)
    requires Lower(a) == a && FirstToMatch(c, a)
    ensures NormalizedStatus(a) == c
  {
    FirstMatchFinds(0, a, c);
  }

  /** No earlier column claims a column's id. */
  lemma IdsAreUnambiguous(c: Column)
    ensures FirstToMatch(c, Id(c))
  {
    match c
    case Pending =>
    case Confirmed =>
    case Preparing =>
    case Ready =>
    case OutForDelivery =>
    case Delivered =>
    case Cancelled =>
  }

  /** No earlier column claims one of a column's aliases. */
  lemma AliasesAreUnambiguous(c: Column, a: string)
    requires a in Aliases(c)
    ensures FirstToMatch(c, a)
  {
    match c
    case Pending => PendingAliasesAreUnambiguous(a);
    case Confirmed => ConfirmedAliasesAreUnambiguous(a);
    case Preparing => PreparingAliasesAreUnambiguous(a);
    case Ready => ReadyAliasesAreUnambiguous(a);
    case OutForDelivery => OutForDeliveryAliasesAreUnambiguous(a);
    case Delivered => DeliveredAliasesAreUnambiguous(a);
    case Cancelled => CancelledAliasesAreUnambiguous(a);
  }

  lemma PendingAliasesAreUnambiguous(a: string)
    requires a in Aliases(Pending)
    ensures FirstToMatch(Pending, a)
  {
  }

  lemma ConfirmedAliasesAreUnambiguous(a: string)
    requires a in Aliases(Confirmed)
    ensures FirstToMatch(Confirmed, a)
  {
  }

  lemma PreparingAliasesAreUnambiguous(a: string)
    requires a in Aliases(Preparing)
    ensures FirstToMatch(Preparing, a)
  {
  }

  lemma ReadyAliasesAreUnambiguous(a: string)
    requires a in Aliases(Ready)
    ensures FirstToMatch(Ready, a)
  {
  }

  lemma OutForDeliveryAliasesAreUnambiguous(a: string)
    requires a in Aliases(OutForDelivery)
    ensures FirstToMatch(OutForDelivery, a)
  {
  }

  lemma DeliveredAliasesAreUnambiguous(a: string)
    requires a in Aliases(Delivered)
    ensures FirstToMatch(Delivered, a)
  {
  }

  lemma CancelledAliasesAreUnambiguous(a: string)
    requires a in Aliases(Cancelled)
    ensures FirstToMatch(Cancelled, a)
  {
  }

  /** The aliases are written in lower case. */
  lemma AliasesAreLowerCase(c: Column, a: string)
    requires a in Aliases(c)
    ensures Lower(a) == a
  {
    match c
    case Pending => PendingAliasesAreLowerCase(a);
    case Confirmed => ConfirmedAliasesAreLowerCase(a);
    case Preparing => PreparingAliasesAreLowerCase(a);
    case Ready => ReadyAliasesAreLowerCase(a);
    case OutForDelivery => OutForDeliveryAliasesAreLowerCase(a);
    case Delivered => DeliveredAliasesAreLowerCase(a);
    case Cancelled => CancelledAliasesAreLowerCase(a);
  }

  lemma PendingAliasesAreLowerCase(a: string)
    requires a in Aliases(Pending)
    ensures Lower(a) == a
  {
    LowerOfLowercase(a);
  }

  lemma ConfirmedAliasesAreLowerCase(a: string)
    requires a in Aliases(Confirmed)
    ensures Lower(a) == a
  {
    LowerOfLowercase(a);
  }

  lemma PreparingAliasesAreLowerCase(a: string)
    requires a in Aliases(Preparing)
    ensures Lower(a) == a
  {
    LowerOfLowercase(a);
  }

  lemma ReadyAliasesAreLowerCase(a: string)
    requires a in Aliases(Ready)
    ensures Lower(a) == a
  {
    LowerOfLowercase(a);
  }

  lemma OutForDeliveryAliasesAreLowerCase(a: string)
    requires a in Aliases(OutForDelivery)
    ensures Lower(a) == a
  {
    LowerOfLowercase(a);
  }

  lemma DeliveredAliasesAreLowerCase(a: string)
    requires a in Aliases(Delivered)
    ensures Lower(a) == a
  {
    LowerOfLowercase(a);
  }

  lemma CancelledAliasesAreLowerCase(a: string)
    requires a in Aliases(Cancelled)
    ensures Lower(a) == a
  {
    LowerOfLowercase(a);
  }

  /** A column id normalises to its own column. */
  lemma NormalizeId(c: Column)
    ensures NormalizedStatus(Id(c)) == c
  {
    LowerOfLowercase(Id(c));
    IdsAreUnambiguous(c);
    NormalizeSpelling(c, Id(c));
  }

  /** Every alias lands in the column it is listed under. */
  lemma NormalizeAlias(c: Column, a: string)
    requires a in Aliases(c)
    ensures NormalizedStatus(a) == c
  {
    AliasesAreLowerCase(c, a);
    AliasesAreUnambiguous(c, a);
    NormalizeSpelling(c, a);
  }

  /** Normalising ignores case. */
  lemma NormalizeIgnoresCase(status: string)
    ensures NormalizedStatus(Upper(status)) == NormalizedStatus(status)
    ensures NormalizedStatus(Lower(status)) == NormalizedStatus(status)
  {
    LowerIdempotent(status);
    LowerUpper(status);
  }

  /** Normalising twice is normalising once. */
  lemma NormalizeIdempotent(status: string)
    ensures NormalizedStatus(Id(NormalizedStatus(status))) == NormalizedStatus(status)
  {
    NormalizeId(NormalizedStatus(status));
  }

  /** `ORDER_STATUSES`: the configuration of every column, in board order. */
  const ORDER_STATUSES: seq<StatusConfig> := [Config(Pending), Config(Confirmed), Config(Preparing), Config(Ready), Config(OutForDelivery), Config(Delivered), Config(Cancelled)]

  /** `getStatusConfig`: the configuration of the column the status lands in. */
  function GetStatusConfig(status: string): (r: StatusConfig)
    ensures r in ORDER_STATUSES
    ensures r.id == Id(NormalizedStatus(status))
  {
    var c := NormalizedStatus(status);
    assert ORDER_STATUSES[BoardIndex(c)] == Config(c);
    Config(c)
  }

  // ---------------------------------------------------------------------
  // ordersByStatus
  // ---------------------------------------------------------------------

  /** The comparator `b.created_at - a.created_at` as a key for an ascending stable sort. */
  function NewestFirst(o: Order): int
  {
    -o.createdAt
  }

  function InColumn(c: Column): Order -> bool
  {
    (o: Order) => NormalizedStatus(o.status) == c
  }

  /** The orders of each column, newest first; every column is present, even when empty. */
  function Grouped(orders: seq<Order>): (g: map<Column, seq<Order>>)
    ensures forall c :: c in g
  {
    EveryColumnListed();
    map c | c in COLUMNS :: SortByKey(Filter(orders, InColumn(c)), NewestFirst)
  }

  /** An order is in exactly the column its normalised status names. */
  lemma GroupedMembership(orders: seq<Order>, c: Column, o: Order)
    ensures o in Grouped(orders)[c] <==> o in orders && NormalizedStatus(o.status) == c
  {
    var f := Filter(orders, InColumn(c));
    assert multiset(Grouped(orders)[c]) == multiset(f);
    assert o in Grouped(orders)[c] <==> o in multiset(f);
    FilterMembership(orders, InColumn(c), o);
  }

  /** Each column is ordered by creation time, newest first. */
  lemma GroupedNewestFirst(orders: seq<Order>, c: Column)
    ensures forall i, j :: 0 <= i < j < |Grouped(orders)[c]| ==>
      Grouped(orders)[c][i].createdAt >= Grouped(orders)[c][j].createdAt
  {
    SortByKeySorted(Filter(orders, InColumn(c)), NewestFirst);
  }

  /** Orders of a column sharing a sort key, that is created at the same instant, keep the order the list gave them. */
  lemma GroupedStable(orders: seq<Order>, c: Column, k: int)
    ensures Filter(Grouped(orders)[c], KeyIs(NewestFirst, k)) == Filter(Filter(orders, InColumn(c)), KeyIs(NewestFirst, k))
  {
    GroupedAt(orders, c);
    SortByKeyStable(Filter(orders, InColumn(c)), NewestFirst, k);
  }

  /** A column holds as many cards as there are orders whose status lands in it. */
  lemma GroupedSize(orders: seq<Order>, c: Column)
    ensures c in Grouped(orders) && |Grouped(orders)[c]| == Count(orders, InColumn(c))
  {
    CountIsFilterLength(orders, InColumn(c));
  }

  /** The first order counts towards its own column only. */
  lemma CountStep(orders: seq<Order>, c: Column)
    requires orders != []
    ensures Count(orders, InColumn(c)) ==
      (if NormalizedStatus(orders[0].status) == c then 1 else 0) + Count(orders[1..], InColumn(c))
  {
  }

  /** Total number of cards in the columns `cols` of a grouping. */
  function ColumnTotal(g: map<Column, seq<Order>>, cols: seq<Column>): nat
  {
    if cols == [] then 0
    else (if cols[0] in g then |g[cols[0]]| else 0) + ColumnTotal(g, cols[1..])
  }

  /** Number of orders whose status lands in one of `cols`, counted column by column. */
  function CountsOver(orders: seq<Order>, cols: seq<Column>): nat
  {
    if cols == [] then 0 else Count(orders, InColumn(cols[0])) + CountsOver(orders, cols[1..])
  }

  /** Column by column, the first order adds one card when its own column is listed, and none otherwise. */
  lemma {:induction false} CountsOverStep(orders: seq<Order>, cols: seq<Column>)
    requires orders != [] && Distinct(cols)
    ensures CountsOver(orders, cols) ==
      (if NormalizedStatus(orders[0].status) in cols then 1 else 0) + CountsOver(orders[1..], cols)
  {
    if cols != [] {
      var x := NormalizedStatus(orders[0].status);
      assert Distinct(cols[1..]) by {
        forall i, j | 0 <= i < j < |cols[1..]| ensures cols[1..][i] != cols[1..][j] {
          assert cols[1..][i] == cols[i + 1] && cols[1..][j] == cols[j + 1];
        }
      }
      CountsOverStep(orders, cols[1..]);
      CountStep(orders, cols[0]);
      assert x in cols <==> x == cols[0] || x in cols[1..] by {
        assert cols == [cols[0]] + cols[1..];
      }
    }
  }

  /** The board lists each column once. */
  lemma ColumnsDistinct()
    ensures Distinct(COLUMNS)
  {
    forall i, j | 0 <= i < j < |COLUMNS| ensures COLUMNS[i] != COLUMNS[j] {
      ColumnsInBoardOrder(i);
      ColumnsInBoardOrder(j);
    }
  }

  /** Counting the board's columns one by one counts every order once. */
  lemma {:induction false} CountsOverAll(orders: seq<Order>)
    ensures CountsOver(orders, COLUMNS) == |orders|
    decreases |orders|
  {
    if orders != [] {
      ColumnsDistinct();
      CountsOverStep(orders, COLUMNS);
      CountsOverAll(orders[1..]);
      AllColumnsListed(NormalizedStatus(orders[0].status));
    } else {
      CountsOverNone(orders, COLUMNS);
    }
  }

  /** Without orders every column is empty. */
  lemma {:induction false} CountsOverNone(orders: seq<Order>, cols: seq<Column>)
    requires orders == []
    ensures CountsOver(orders, cols) == 0
  {
    if cols != [] {
      CountsOverNone(orders, cols[1..]);
    }
  }

  /** A grouping whose columns have the counted sizes totals the counts. */
  lemma {:induction false} ColumnTotalIsCounts(g: map<Column, seq<Order>>, orders: seq<Order>, cols: seq<Column>)
    requires forall c :: c in g && |g[c]| == Count(orders, InColumn(c))
    ensures ColumnTotal(g, cols) == CountsOver(orders, cols)
  {
    if cols != [] {
      ColumnTotalIsCounts(g, orders, cols[1..]);
    }
  }

  /** The columns hold every order exactly once: their sizes add up to the number of orders. */
  lemma GroupedPartition(orders: seq<Order>)
    ensures ColumnTotal(Grouped(orders), COLUMNS) == |orders|
  {
    forall c ensures c in Grouped(orders) && |Grouped(orders)[c]| == Count(orders, InColumn(c)) {
      GroupedSize(orders, c);
    }
    ColumnTotalIsCounts(Grouped(orders), orders, COLUMNS);
    CountsOverAll(orders);
  }

  /** A record holding, for every column, its filtered orders sorted newest first is the grouping. */
  lemma GroupedFromColumns(g: map<Column, seq<Order>>, orders: seq<Order>)
    requires forall c :: c in g && g[c] == SortByKey(Filter(orders, InColumn(c)), NewestFirst)
    ensures g == Grouped(orders)
  {
    var h := Grouped(orders);
    forall c ensures c in h && h[c] == g[c] {
      GroupedAt(orders, c);
    }
    assert g.Keys == h.Keys;
  }

  /** The column `c` of the grouping holds its filtered orders, newest first. */
  lemma GroupedAt(orders: seq<Order>, c: Column)
    ensures c in Grouped(orders) && Grouped(orders)[c] == SortByKey(Filter(orders, InColumn(c)), NewestFirst)
  {
    AllColumnsListed(c);
  }

  /**
   * The memo that builds `ordersByStatus`: an empty list per column, each
   * order pushed onto its column, then every column sorted newest first.
   */
  method GroupOrders(orders: seq<Order>) returns (grouped: map<Column, seq<Order>>)
    ensures grouped == Grouped(orders)
  {
    var buckets := BucketOrders(orders);
    grouped := SortColumns(buckets);
    GroupedFromColumns(grouped, orders);
  }

  /** The first loop of the memo: every column gets an empty list. */
  method EmptyColumns() returns (grouped: map<Column, seq<Order>>)
    ensures forall c :: c in grouped && grouped[c] == []
  {
    grouped := map[];
    var k := 0;
    while k < COLUMN_COUNT
      invariant 0 <= k <= COLUMN_COUNT
      invariant forall c :: c in grouped <==> BoardIndex(c) < k
      invariant forall c :: c in grouped ==> grouped[c] == []
    {
      BoardIndexOfColumnAt(k);
      grouped := grouped[ColumnAt(k) := []];
      k := k + 1;
    }
  }

  /** The first two loops of the memo: every column gets a list, and each order is pushed onto its column's. */
  method BucketOrders(orders: seq<Order>) returns (grouped: map<Column, seq<Order>>)
    ensures forall c :: c in grouped && grouped[c] == Filter(orders, InColumn(c))
  {
    grouped := EmptyColumns();
    var i := 0;
    while i < |orders|
      invariant 0 <= i <= |orders|
      invariant forall c :: c in grouped && grouped[c] == Filter(orders[..i], InColumn(c))
    {
      var col := NormalizedStatus(orders[i].status);
      BucketStep(grouped, orders, i);
      grouped := grouped[col := grouped[col] + [orders[i]]];
      i := i + 1;
    }
    assert orders[..i] == orders;
  }

  /** Pushing order `i` onto its column extends the buckets of the first `i` orders to the first `i + 1`. */
  lemma BucketStep(grouped: map<Column, seq<Order>>, orders: seq<Order>, i: nat)
    requires i < |orders|
    requires forall c :: c in grouped && grouped[c] == Filter(orders[..i], InColumn(c))
    ensures var col := NormalizedStatus(orders[i].status);
      forall c :: c in grouped[col := grouped[col] + [orders[i]]] &&
        grouped[col := grouped[col] + [orders[i]]][c] == Filter(orders[..i + 1], InColumn(c))
  {
    forall c ensures Filter(orders[..i + 1], InColumn(c)) ==
      Filter(orders[..i], InColumn(c)) + (if InColumn(c)(orders[i]) then [orders[i]] else []) {
      FilterPrefixStep(orders, i, InColumn(c));
    }
  }

  /** The last loop of the memo: each column sorted newest first. */
  method SortColumns(buckets: map<Column, seq<Order>>) returns (grouped: map<Column, seq<Order>>)
    requires forall c :: c in buckets
    ensures forall c :: c in grouped && grouped[c] == SortByKey(buckets[c], NewestFirst)
  {
    grouped := buckets;
    var remaining := grouped.Keys;
    while remaining != {}
      invariant forall c :: c in grouped
      invariant forall c :: grouped[c] == if c in remaining then buckets[c] else SortByKey(buckets[c], NewestFirst)
      decreases |remaining|
    {
      var status :| status in remaining;
      grouped := grouped[status := SortByKey(grouped[status], NewestFirst)];
      remaining := remaining - {status};
    }
  }

  // ---------------------------------------------------------------------
  // displayStatuses
  // ---------------------------------------------------------------------

  /**
   * The filter of `displayStatuses`: `!['cancelled', 'delivered'].includes(s.id)`
   * when no list (or an empty one) is given, `visibleStatuses.includes(s.id)`
   * otherwise.
   */
  function Shown(visible: Option<seq<string>>): Column -> bool
  {
    if visible.None? || visible.value == [] then (c: Column) => Id(c) !in ["cancelled", "delivered"]
    else (c: Column) => Id(c) in visible.value
  }

  /** The columns shown, in board order. */
  function DisplayStatuses(visible: Option<seq<string>>): seq<Column>
  {
    Filter(COLUMNS, Shown(visible))
  }

  /** Only the last two columns have the ids the default view hides. */
  lemma HiddenByDefault(c: Column)
    ensures Id(c) in ["cancelled", "delivered"] <==> c == Cancelled || c == Delivered
  {
    match c
    case Pending =>
    case Confirmed =>
    case Preparing =>
    case Ready =>
    case OutForDelivery =>
    case Delivered =>
    case Cancelled =>
  }

  /** The default view hides exactly the cancelled and delivered columns. */
  lemma DefaultFilter(visible: Option<seq<string>>)
    requires visible.None? || visible.value == []
    ensures forall c :: Shown(visible)(c) <==> c != Cancelled && c != Delivered
  {
    forall c ensures Shown(visible)(c) <==> c != Cancelled && c != Delivered {
      HiddenByDefault(c);
    }
  }

  /** A column is shown when the list names it, or by default when it is not cancelled or delivered. */
  lemma DisplayMembership(visible: Option<seq<string>>, c: Column)
    ensures c in DisplayStatuses(visible) <==>
      if visible.None? || visible.value == [] then c != Cancelled && c != Delivered
      else Id(c) in visible.value
  {
    AllColumnsListed(c);
    FilterMembership(COLUMNS, Shown(visible), c);
    HiddenByDefault(c);
  }

  /** A filter that drops exactly the cancelled and delivered columns keeps the other five, in order. */
  lemma KeepsWorkingColumns(f: Column -> bool)
    requires forall c :: f(c) <==> c != Cancelled && c != Delivered
    ensures Filter(COLUMNS, f) == [Pending, Confirmed, Preparing, Ready, OutForDelivery]
  {
    var working := [Pending, Confirmed, Preparing, Ready, OutForDelivery];
    assert forall i :: 0 <= i < |working| ==> f(working[i]);
    assert COLUMNS == working + [Delivered, Cancelled];
    FilterKeepsAll(working, f);
    FilterAppend(working, [Delivered, Cancelled], f);
    assert Filter([Delivered, Cancelled], f) == [];
  }

  /** By default the board shows the five working columns, in board order. */
  lemma DefaultDisplay(visible: Option<seq<string>>)
    requires visible.None? || visible.value == []
    ensures DisplayStatuses(visible) == [Pending, Confirmed, Preparing, Ready, OutForDelivery]
  {
    DefaultFilter(visible);
    KeepsWorkingColumns(Shown(visible));
  }

  /** Whatever order the list names them in, the columns shown keep the board's order. */
  lemma DisplayInBoardOrder(visible: Option<seq<string>>, i: nat, j: nat)
    requires i < j < |DisplayStatuses(visible)|
    ensures BoardIndex(DisplayStatuses(visible)[i]) < BoardIndex(DisplayStatuses(visible)[j])
  {
    var a, b := FilterPreservesOrder(COLUMNS, Shown(visible), i, j);
    ColumnsInBoardOrder(a);
    ColumnsInBoardOrder(b);
  }

  // ---------------------------------------------------------------------
  // findColumn and the column of an order
  // ---------------------------------------------------------------------

  /** Some order with id `id` has a status that normalises to column `c`. */
  predicate HoldsOrder(orders: seq<Order>, id: string, c: Column)
  {
    exists o :: o in orders && o.id == id && NormalizedStatus(o.status) == c
  }

  /** `statusOrders.some(o => o.id === id)` for the list of column `c`, when the record has one. */
  predicate InGroup(grouped: map<Column, seq<Order>>, c: Column, id: string)
  {
    c in grouped && exists o :: o in grouped[c] && o.id == id
  }

  /** A column of the grouping holds an order exactly when that order's status normalises to it. */
  lemma GroupedHasId(orders: seq<Order>, id: string, c: Column)
    ensures InGroup(Grouped(orders), c, id) <==> HoldsOrder(orders, id, c)
  {
    if InGroup(Grouped(orders), c, id) {
      var o :| o in Grouped(orders)[c] && o.id == id;
      GroupedMembership(orders, c, o);
    }
    if HoldsOrder(orders, id, c) {
      var o :| o in orders && o.id == id && NormalizedStatus(o.status) == c;
      GroupedMembership(orders, c, o);
    }
  }

  /**
   * The first column from position `k` on, in board order (the order in
   * which the record's keys were inserted), whose list holds an order with
   * id `id`.
   */
  function FirstColumnIn(grouped: map<Column, seq<Order>>, k: nat, id: string): (r: Option<Column>)
    requires k <= COLUMN_COUNT
    ensures r.Some? ==> k <= BoardIndex(r.value) && InGroup(grouped, r.value, id)
    ensures r.Some? ==> forall j :: k <= j < BoardIndex(r.value) ==> !InGroup(grouped, ColumnAt(j), id)
    ensures r.None? ==> forall j :: k <= j < COLUMN_COUNT ==> !InGroup(grouped, ColumnAt(j), id)
    decreases COLUMN_COUNT - k
  {
    if k == COLUMN_COUNT then None
    else if InGroup(grouped, ColumnAt(k), id) then Some(ColumnAt(k))
    else FirstColumnIn(grouped, k + 1, id)
  }

  /** The first column from position `k` on holding an order with id `id`. */
  function FirstColumnWith(k: nat, orders: seq<Order>, id: string): Option<Column>
    requires k <= COLUMN_COUNT
    decreases COLUMN_COUNT - k
  {
    if k == COLUMN_COUNT then None
    else if HoldsOrder(orders, id, ColumnAt(k)) then Some(ColumnAt(k))
    else FirstColumnWith(k + 1, orders, id)
  }

  /** The column of the order `id`: the first on the board holding an order with that id. */
  function ColumnOf(orders: seq<Order>, id: string): Option<Column>
  {
    FirstColumnWith(0, orders, id)
  }

  /** Searching a grouping that agrees with `orders` on `id` finds the same column as searching `orders`. */
  lemma {:induction false} FirstColumnAgrees(g: map<Column, seq<Order>>, orders: seq<Order>, id: string, k: nat)
    requires k <= COLUMN_COUNT
    requires forall c :: InGroup(g, c, id) <==> HoldsOrder(orders, id, c)
    ensures FirstColumnIn(g, k, id) == FirstColumnWith(k, orders, id)
    decreases COLUMN_COUNT - k
  {
    if k < COLUMN_COUNT {
      FirstColumnAgrees(g, orders, id, k + 1);
    }
  }

  /** `findColumn` on `ordersByStatus` finds the column of the order. */
  lemma FindOnGrouped(orders: seq<Order>, id: string)
    ensures FirstColumnIn(Grouped(orders), 0, id) == ColumnOf(orders, id)
  {
    forall c ensures InGroup(Grouped(orders), c, id) <==> HoldsOrder(orders, id, c) {
      GroupedHasId(orders, id, c);
    }
    FirstColumnAgrees(Grouped(orders), orders, id, 0);
  }

  /** The search returns a column holding the order with no such column before it, and none only when no column from `k` on holds it. */
  lemma {:induction false} FirstColumnWithSpec(k: nat, orders: seq<Order>, id: string)
    requires k <= COLUMN_COUNT
    ensures var r := FirstColumnWith(k, orders, id);
      && (r.None? <==> forall j :: k <= j < COLUMN_COUNT ==> !HoldsOrder(orders, id, ColumnAt(j)))
      && (r.Some? ==> k <= BoardIndex(r.value) && HoldsOrder(orders, id, r.value))
      && (r.Some? ==> forall j :: k <= j < BoardIndex(r.value) ==> !HoldsOrder(orders, id, ColumnAt(j)))
    decreases COLUMN_COUNT - k
  {
    if k < COLUMN_COUNT {
      BoardIndexOfColumnAt(k);
      if HoldsOrder(orders, id, ColumnAt(k)) {
        assert FirstColumnWith(k, orders, id) == Some(ColumnAt(k));
      } else {
        FirstColumnWithSpec(k + 1, orders, id);
        assert FirstColumnWith(k, orders, id) == FirstColumnWith(k + 1, orders, id);
      }
    }
  }

  /**
   * The column found holds an order with that id and no column before it
   * on the board does; there is none exactly when no order carries the id.
   */
  lemma ColumnOfSpec(orders: seq<Order>, id: string)
    ensures ColumnOf(orders, id).Some? ==> HoldsOrder(orders, id, ColumnOf(orders, id).value)
    ensures ColumnOf(orders, id).Some? ==>
      forall c :: BoardIndex(c) < BoardIndex(ColumnOf(orders, id).value) ==> !HoldsOrder(orders, id, c)
    ensures ColumnOf(orders, id).None? <==> forall o :: o in orders ==> o.id != id
  {
    FirstColumnWithSpec(0, orders, id);
    forall c ensures ColumnAt(BoardIndex(c)) == c {
    }
    if o :| o in orders && o.id == id {
      assert HoldsOrder(orders, id, NormalizedStatus(o.status));
    }
  }

  /** When every order with id `id` normalises to `c`, and there is one, the order's column is `c`. */
  lemma ColumnOfLands(orders: seq<Order>, id: string, c: Column)
    requires exists o :: o in orders && o.id == id
    requires forall o :: o in orders && o.id == id ==> NormalizedStatus(o.status) == c
    ensures ColumnOf(orders, id) == Some(c)
  {
    ColumnOfSpec(orders, id);
  }

  /** The first order with id `id`: `orders.find(o => o.id === id)`. */
  function FindById(orders: seq<Order>, id: string): (r: Option<Order>)
    ensures r.None? <==> forall o :: o in orders ==> o.id != id
    ensures r.Some? ==> r.value in orders && r.value.id == id
  {
    if orders == [] then None
    else if orders[0].id == id then Some(orders[0])
    else FindById(orders[1..], id)
  }

  /**
   * `findColumn`: walks the columns of `ordersByStatus` in board order and
   * returns the first whose list holds the order.
   */
  method FindColumn(grouped: map<Column, seq<Order>>, orderId: string) returns (r: Option<Column>)
    ensures r == FirstColumnIn(grouped, 0, orderId)
  {
    var i := 0;
    while i < COLUMN_COUNT
      invariant 0 <= i <= COLUMN_COUNT
      invariant FirstColumnIn(grouped, 0, orderId) == FirstColumnIn(grouped, i, orderId)
    {
      var status := ColumnAt(i);
      if status in grouped && exists o :: o in grouped[status] && o.id == orderId {
        return Some(status);
      }
      i := i + 1;
    }
    return None;
  }

  /** `ORDER_STATUSES.some(s => s.id === overId)`: the column from position `k` on whose id is `name`. */
  function ColumnNamed(k: nat, name: string): (r: Option<Column>)
    requires k <= COLUMN_COUNT
    ensures r.Some? ==> Id(r.value) == name
    ensures r.None? ==> forall j :: k <= j < COLUMN_COUNT ==> Id(ColumnAt(j)) != name
    decreases COLUMN_COUNT - k
  {
    if k == COLUMN_COUNT then None
    else if Id(ColumnAt(k)) == name then Some(ColumnAt(k))
    else ColumnNamed(k + 1, name)
  }

  // ---------------------------------------------------------------------
  // Status changes
  // ---------------------------------------------------------------------

  /** `prev.map(order => order.id === id ? { ...order, status } : order)`. */
  function WithStatus(orders: seq<Order>, id: string, status: string): (r: seq<Order>)
    ensures |r| == |orders|
    ensures forall i :: 0 <= i < |r| ==> r[i] == if orders[i].id == id then orders[i].(status := status) else orders[i]
  {
    seq(|orders|, i requires 0 <= i < |orders| => if orders[i].id == id then orders[i].(status := status) else orders[i])
  }

  /** After setting the status of order `id` to a column's id, that order is in that column. */
  lemma WithStatusMovesCard(orders: seq<Order>, id: string, c: Column)
    requires exists o :: o in orders && o.id == id
    ensures ColumnOf(WithStatus(orders, id, Id(c)), id) == Some(c)
  {
    var r := WithStatus(orders, id, Id(c));
    NormalizeId(c);
    forall o | o in r && o.id == id ensures NormalizedStatus(o.status) == c {
      var i :| 0 <= i < |r| && r[i] == o;
    }
    var o0 :| o0 in orders && o0.id == id;
    var i0 :| 0 <= i0 < |orders| && orders[i0] == o0;
    assert r[i0] in r && r[i0].id == id;
    ColumnOfLands(r, id, c);
  }

  /** A drag the board acts on: the order, the column it left and the column it was dropped on. */
  datatype Move = Move(orderId: string, source: Column, dest: Column)

  /** The drop target's column: the target itself when it names a column, else the column of the order dropped on. */
  function DropColumn(orders: seq<Order>, overId: string): Option<Column>
  {
    var named := ColumnNamed(0, overId);
    if named.Some? then named else ColumnOf(orders, overId)
  }

  /**
   * What `handleDragEnd` decides: nothing without a drop target; otherwise
   * the move from the dragged order's column to the drop column, unless
   * either is missing or they are the same.
   */
  function PlannedMove(orders: seq<Order>, over: Option<string>, activeOrderId: string): Option<Move>
  {
    if over.None? then None
    else
      var source := ColumnOf(orders, activeOrderId);
      var dest := DropColumn(orders, over.value);
      if source.None? || dest.None? || source.value == dest.value then None
      else Some(Move(activeOrderId, source.value, dest.value))
  }

  /**
   * The decision inside `handleDragEnd` once there is a drop target: group
   * the orders, look up the dragged order's column and the drop column
   * (a column id, or the column of the order dropped on), and move only
   * between two different columns.
   */
  method PlanMove(orders: seq<Order>, overId: string, activeOrderId: string) returns (move: Option<Move>)
    ensures move == PlannedMove(orders, Some(overId), activeOrderId)
  {
    var grouped := GroupOrders(orders);
    FindOnGrouped(orders, activeOrderId);
    var sourceColumn := FindColumn(grouped, activeOrderId);
    var destColumn := ColumnNamed(0, overId);
    if destColumn.None? {
      FindOnGrouped(orders, overId);
      destColumn := FindColumn(grouped, overId);
    }
    assert sourceColumn == ColumnOf(orders, activeOrderId);
    assert destColumn == DropColumn(orders, overId);
    if sourceColumn.None? || destColumn.None? || sourceColumn.value == destColumn.value {
      return None;
    }
    move := Some(Move(activeOrderId, sourceColumn.value, destColumn.value));
  }

  /** How the status-change callback ended: there was none, it resolved, or it threw. */
  datatype CallOutcome = NoCallback | Resolved | Threw

  /** The board's state. */
  class Board {
    var localOrders: seq<Order>
    var updatingOrders: set<string>
    var activeId: Option<string>

    constructor (externalOrders: seq<Order>)
      ensures localOrders == externalOrders && updatingOrders == {} && activeId == None
    {
      localOrders := externalOrders;
      updatingOrders := {};
      activeId := None;
    }

    /** The dragged card shown in the overlay. */
    function ActiveOrder(): (r: Option<Order>)
      reads this
      ensures r.Some? ==> activeId.Some? && r.value in localOrders && r.value.id == activeId.value
      ensures activeId.Some? && (exists o :: o in localOrders && o.id == activeId.value) ==> r.Some?
    {
      if activeId.None? then None else FindById(localOrders, activeId.value)
    }

    /** `handleDragStart`. */
    method DragStart(id: string)
      modifies this
      ensures activeId == Some(id)
      ensures localOrders == old(localOrders) && updatingOrders == old(updatingOrders)
    {
      activeId := Some(id);
    }

    /**
     * `handleDragEnd` up to the server call: the drag is cleared and, when
     * the move is real, the order's status becomes the destination column's
     * id and the order is marked as updating. Every other order is untouched.
     */
    method DragEnd(over: Option<string>, activeOrderId: string) returns (move: Option<Move>)
      modifies this
      ensures activeId == None
      ensures move == PlannedMove(old(localOrders), over, activeOrderId)
      ensures move.None? ==> localOrders == old(localOrders) && updatingOrders == old(updatingOrders)
      ensures move.Some? ==>
        && localOrders == WithStatus(old(localOrders), activeOrderId, Id(move.value.dest))
        && updatingOrders == old(updatingOrders) + {activeOrderId}
    {
      activeId := None;
      if over.None? {
        return None;
      }
      move := PlanMove(localOrders, over.value, activeOrderId);
      if move.Some? {
        localOrders := WithStatus(localOrders, activeOrderId, Id(move.value.dest));
        updatingOrders := updatingOrders + {activeOrderId};
      }
    }

    /**
     * The rest of `handleDragEnd`: when the callback threw, the order's
     * status goes back to the source column's id; in every case the order
     * stops being marked as updating.
     */
    method FinishMove(move: Move, outcome: CallOutcome)
      modifies this
      ensures localOrders == if outcome == Threw then WithStatus(old(localOrders), move.orderId, Id(move.source))
                             else old(localOrders)
      ensures updatingOrders == old(updatingOrders) - {move.orderId}
      ensures activeId == old(activeId)
    {
      if outcome == Threw {
        localOrders := WithStatus(localOrders, move.orderId, Id(move.source));
      }
      updatingOrders := updatingOrders - {move.orderId};
    }

    /**
     * The effect that follows the parent's orders: while nothing is
     * updating the server's list is taken as it is; otherwise an order that
     * is updating keeps its local copy.
     */
    method SyncExternal(externalOrders: seq<Order>)
      modifies this
      ensures localOrders == Merged(old(localOrders), externalOrders, updatingOrders)
      ensures updatingOrders == old(updatingOrders) && activeId == old(activeId)
    {
      if updatingOrders == {} {
        localOrders := externalOrders;
        return;
      }
      var prev := localOrders;
      var next: seq<Order> := [];
      var i := 0;
      while i < |externalOrders|
        invariant 0 <= i <= |externalOrders|
        invariant next == Merged(prev, externalOrders, updatingOrders)[..i]
      {
        var order := externalOrders[i];
        if order.id in updatingOrders {
          next := next + [GetOr(FindById(prev, order.id), order)];
        } else {
          next := next + [order];
        }
        i := i + 1;
      }
      localOrders := next;
    }
  }

  /** The orders after the sync effect: the server's list, with local copies of the orders being updated. */
  function Merged(prev: seq<Order>, externalOrders: seq<Order>, updating: set<string>): (r: seq<Order>)
    ensures |r| == |externalOrders|
    ensures forall i :: 0 <= i < |r| ==> r[i].id == externalOrders[i].id
    ensures forall i :: 0 <= i < |r| && externalOrders[i].id !in updating ==> r[i] == externalOrders[i]
    ensures forall i :: 0 <= i < |r| && externalOrders[i].id in updating ==>
      r[i] == GetOr(FindById(prev, externalOrders[i].id), externalOrders[i])
  {
    if updating == {} then externalOrders
    else
      seq(|externalOrders|, i requires 0 <= i < |externalOrders| =>
        if externalOrders[i].id in updating then GetOr(FindById(prev, externalOrders[i].id), externalOrders[i])
        else externalOrders[i])
  }

  /**
   * A failed status change puts the card back: after the optimistic update
   * and the rollback, the order is in the column it was dragged from and
   * every other order is as it was.
   */
  lemma RollbackRestoresColumn(orders: seq<Order>, over: Option<string>, activeOrderId: string)
    requires PlannedMove(orders, over, activeOrderId).Some?
    ensures var m := PlannedMove(orders, over, activeOrderId).value;
      var after := WithStatus(WithStatus(orders, activeOrderId, Id(m.dest)), activeOrderId, Id(m.source));
      && ColumnOf(after, activeOrderId) == Some(m.source)
      && forall i :: 0 <= i < |orders| && orders[i].id != activeOrderId ==> after[i] == orders[i]
  {
    var m := PlannedMove(orders, over, activeOrderId).value;
    PlannedOrderExists(orders, over, activeOrderId);
    MoveThenRollback(orders, activeOrderId, m.source, m.dest);
  }

  /** A planned move is about an order that is on the board. */
  lemma PlannedOrderExists(orders: seq<Order>, over: Option<string>, activeOrderId: string)
    requires PlannedMove(orders, over, activeOrderId).Some?
    ensures exists o :: o in orders && o.id == activeOrderId
  {
    ColumnOfSpec(orders, activeOrderId);
  }

  /** Setting an order's status to `dest` and then back to `source` leaves it in `source` and nothing else moved. */
  lemma MoveThenRollback(orders: seq<Order>, id: string, source: Column, dest: Column)
    requires exists o :: o in orders && o.id == id
    ensures var after := WithStatus(WithStatus(orders, id, Id(dest)), id, Id(source));
      && ColumnOf(after, id) == Some(source)
      && forall i :: 0 <= i < |orders| && orders[i].id != id ==> after[i] == orders[i]
  {
    var mid := WithStatus(orders, id, Id(dest));
    var o :| o in orders && o.id == id;
    var i :| 0 <= i < |orders| && orders[i] == o;
    assert mid[i] in mid && mid[i].id == id;
    WithStatusMovesCard(mid, id, source);
  }

  /** The optimistic update moves the card to the destination column at once. */
  lemma OptimisticMoveLands(orders: seq<Order>, over: Option<string>, activeOrderId: string)
    requires PlannedMove(orders, over, activeOrderId).Some?
    ensures var m := PlannedMove(orders, over, activeOrderId).value;
      ColumnOf(WithStatus(orders, activeOrderId, Id(m.dest)), activeOrderId) == Some(m.dest)
  {
    var m := PlannedMove(orders, over, activeOrderId).value;
    WithStatusMovesCard(orders, activeOrderId, m.dest);
  }

  /** While an order is updating, the server's (possibly stale) copy does not undo its optimistic status. */
  lemma SyncKeepsOptimisticStatus(prev: seq<Order>, externalOrders: seq<Order>, updating: set<string>, i: nat)
    requires i < |externalOrders| && externalOrders[i].id in updating
    requires exists o :: o in prev && o.id == externalOrders[i].id
    ensures Merged(prev, externalOrders, updating)[i] == FindById(prev, externalOrders[i].id).value
    ensures Merged(prev, externalOrders, updating)[i] in prev
  {
  }
}
