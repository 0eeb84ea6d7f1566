/** Page requests, and the pages they cut out of a listing. */
module Paging {
  import opened Prelude
  import opened TaskOrder

  const DEFAULT_SIZE := 20
  const MAX_SIZE := 100

  const TWO31 := 0x8000_0000
  /** The largest page a request can ask for. */
  const LAST_PAGE := 0x7FFF_FFFF
  const TWO63 := 0x8000_0000_0000_0000

  /** Two's complement results of 32-bit and 64-bit arithmetic. */
  function Wrap32(x: int): int {
    (x + TWO31) % (2 * TWO31) - TWO31
  }

  function Wrap64(x: int): int {
    (x + TWO63) % (2 * TWO63) - TWO63
  }

  datatype PageRequest = PageRequest(page: int, size: int)

  datatype Pagination = Pagination(page: int, size: int, total: int, totalPages: int)

  datatype Field = PageField | SizeField

  function Limit(r: PageRequest): int {
    r.size
  }

  function Offset(r: PageRequest): int {
    Wrap64(Wrap32(r.page - 1) * r.size)
  }

  // ---- Parsing ----

  predicate IsDigit(c: char) {
    '0' <= c <= '9'
  }

  /** The value of a nonempty run of decimal digits. */
  function Digits(s: string): Option<nat> {
    if s == [] then None
    else
      var last := |s| - 1;
      if !IsDigit(s[last]) then None
      else
        var d := s[last] as nat - '0' as nat;
        if last == 0 then Some(d)
        else match Digits(s[..last])
             case None => None
             case Some(n) => Some(10 * n + d)
  }

  /** `strconv.ParseInt(s, 10, 32)`: an optional sign, digits, and a value that fits. */
  function ParseInt32(s: string): Option<int> {
    if s == [] then None
    else
      var negative := s[0] == '-';
      match Digits(if negative || s[0] == '+' then s[1..] else s)
      case None => None
      case Some(n) =>
        var v: int := if negative then -(n as int) else n;
        if -TWO31 <= v < TWO31 then Some(v) else None
  }

  function Decimal(n: nat): string {
    var last := [(n % 10 + '0' as nat) as char];
    if n < 10 then last else Decimal(n / 10) + last
  }

  /** What a parameter selects: the default when it is absent, and nothing when it is refused. */
  function Chosen(raw: string, default: int, max: int): Option<int> {
    if raw == "" then Some(default)
    else match ParseInt32(raw)
         case Some(n) => if 1 <= n <= max then Some(n) else None
         case None => None
  }

  /** Answers exactly the fields that are wrong, or a request within bounds. */
  method ParsePageRequest(page: string, size: string) returns (r: Result<PageRequest, set<Field>>)
    ensures r.Ok? <==> Chosen(page, 1, LAST_PAGE).Some? && Chosen(size, DEFAULT_SIZE, MAX_SIZE).Some?
    ensures r.Ok? ==> Some(r.value.page) == Chosen(page, 1, LAST_PAGE) && Some(r.value.size) == Chosen(size, DEFAULT_SIZE, MAX_SIZE)
    ensures r.Ok? ==> Valid(r.value) && 1 <= r.value.page <= 2147483647 && 1 <= r.value.size <= 100
    ensures r.Ok? && page == "" ==> r.value.page == 1
    ensures r.Ok? && size == "" ==> r.value.size == 20
    ensures page == "" && size == "" ==> r.Ok?
    ensures r.Err? ==> r.error != {} && (PageField in r.error <==> Chosen(page, 1, LAST_PAGE).None?)
                                    && (SizeField in r.error <==> Chosen(size, DEFAULT_SIZE, MAX_SIZE).None?)
  {
    var req := PageRequest(1, DEFAULT_SIZE);
    var fields: set<Field> := {};
    if page != "" {
      var n := ParseInt32(page);
      if n.None? || n.value < 1 {
        fields := fields + {PageField};
      } else {
        req := req.(page := n.value);
      }
    }
    if size != "" {
      var n := ParseInt32(size);
      if n.None? || n.value < 1 || n.value > MAX_SIZE {
        fields := fields + {SizeField};
      } else {
        req := req.(size := n.value);
      }
    }
    if |fields| > 0 {
      return Err(fields);
    }
    r := Ok(req);
  }

  predicate Valid(r: PageRequest) {
    1 <= r.page <= LAST_PAGE && 1 <= r.size <= MAX_SIZE
  }

  lemma {:induction false} DigitsOfDecimal(n: nat)
    ensures Decimal(n) != [] && IsDigit(Decimal(n)[0])
    ensures Digits(Decimal(n)) == Some(n)
  {
    if n >= 10 {
      DigitsOfDecimal(n / 10);
      assert Decimal(n)[..|Decimal(n)| - 1] == Decimal(n / 10);
    }
  }

  /** Every page number a client can be shown is accepted back, up to the largest the request can carry. */
  lemma ParseDecimalIff(n: nat)
    ensures ParseInt32(Decimal(n)) == if n < TWO31 then Some(n) else None
    ensures Chosen(Decimal(n), 1, LAST_PAGE).Some? <==> 1 <= n < TWO31
  {
    DigitsOfDecimal(n);
  }

  predicate AllDigits(s: string) {
    s != [] && forall i | 0 <= i < |s| :: '0' <= s[i] <= '9'
  }

  lemma {:induction false} DigitsIff(s: string)
    ensures Digits(s).Some? <==> AllDigits(s)
  {
    if |s| > 1 {
      DigitsIff(s[..|s| - 1]);
      assert AllDigits(s) <==> AllDigits(s[..|s| - 1]) && IsDigit(s[|s| - 1]);
    }
  }

  /** Nothing but decimal digits, after one sign at most, is read as a number. */
  lemma ParseTakesNumbersOnly(s: string)
    ensures ParseInt32(s).Some? ==> AllDigits(s) || (s != [] && (s[0] == '+' || s[0] == '-') && AllDigits(s[1..]))
  {
    if s != [] {
      DigitsIff(s);
      DigitsIff(s[1..]);
    }
  }

  /** A plus sign changes nothing. */
  lemma ParsePlus(n: nat)
    ensures ParseInt32("+" + Decimal(n)) == ParseInt32(Decimal(n))
  {
    DigitsOfDecimal(n);
    assert ("+" + Decimal(n))[1..] == Decimal(n);
  }

  /** A minus sign makes the number negative, and a page that does not exist. */
  lemma ParseMinus(n: nat)
    ensures var v := ParseInt32("-" + Decimal(n)); (v.Some? <==> n <= 2147483648) && (v.Some? ==> v.value == 0 - n)
    ensures Chosen("-" + Decimal(n), 1, LAST_PAGE).None?
  {
    DigitsOfDecimal(n);
    assert ("-" + Decimal(n))[1..] == Decimal(n);
  }

  // ---- Windows ----

  /** `LIMIT limit OFFSET offset`. */
  function Window(rows: seq<Task>, limit: nat, offset: nat): seq<Task> {
    var start := if offset < |rows| then offset else |rows|;
    if start + limit < |rows| then rows[start..start + limit] else rows[start..]
  }

  lemma Fits32(x: int)
    requires -TWO31 <= x < TWO31
    ensures Wrap32(x) == x
  {
  }

  lemma Fits64(x: int)
    requires -TWO63 <= x < TWO63
    ensures Wrap64(x) == x
  {
  }

  lemma Grows(a: int, b: int, size: int)
    requires size > 0 && a <= b
    ensures a * size <= b * size
  {
  }

  /** The offset of an accepted request is exact: nothing wraps around. */
  lemma OffsetIsExact(r: PageRequest)
    requires Valid(r)
    ensures Offset(r) == (r.page - 1) * r.size && 0 <= Offset(r) < TWO63
  {
    Fits32(r.page - 1);
    Grows(0, r.page - 1, r.size);
    Grows(r.page - 1, TWO31, r.size);
    assert TWO31 * r.size < TWO63;
    Fits64((r.page - 1) * r.size);
  }

  function NewPagination(r: PageRequest, total: int): Pagination {
    Pagination(r.page, r.size, total, if r.size > 0 then Quotient(Wrap64(Wrap64(total + r.size) - 1), r.size) else 0)
  }

  /** Division that truncates toward zero. */
  function Quotient(x: int, y: int): int
    requires y > 0
  {
    if x >= 0 then x / y else -(-x / y)
  }

  lemma RoundsUp(total: nat, size: int)
    requires size > 0
    ensures var n := (total + size - 1) / size; 0 <= n && total <= n * size < total + size
  {
    var x := total + size - 1;
    assert x == size * (x / size) + x % size;
    assert x / size * size == size * (x / size);
  }

  /** The reported number of pages is the least that holds every row. */
  ghost predicate CountIsLeast(r: PageRequest, total: nat) {
    var n := NewPagination(r, total).totalPages;
    0 <= n && total <= n * r.size < total + r.size
  }

  /** For every 64-bit row count, the page count is right exactly when adding a page to it does not overflow. */
  lemma TotalPagesIsLeastIff(r: PageRequest, total: nat)
    requires Valid(r) && total < TWO63
    ensures CountIsLeast(r, total) <==> total + r.size <= TWO63
  {
    if total + r.size < TWO63 {
      Fits64(total + r.size);
      Fits64(total + r.size - 1);
      RoundsUp(total, r.size);
    } else if total + r.size == TWO63 {
      assert Wrap64(TWO63) == -TWO63 && Wrap64(-TWO63 - 1) == TWO63 - 1;
      RoundsUp(total, r.size);
    } else {
      OverflowIsNegative(r, total);
    }
  }

  lemma OverflowIsNegative(r: PageRequest, total: nat)
    requires Valid(r) && total < TWO63 && total + r.size > TWO63
    ensures !CountIsLeast(r, total)
  {
    var x := total + r.size;
    Fits64(x - 2 * TWO63);
    assert Wrap64(x) == Wrap64(x - 2 * TWO63);
    Fits64(x - 2 * TWO63 - 1);
    var n := NewPagination(r, total).totalPages;
    assert n <= 0;
    if n == 0 {
      assert n * r.size == 0;
    }
  }

  /** The rows of one page. */
  function PageOf(rows: seq<Task>, r: PageRequest): seq<Task>
    requires Valid(r)
  {
    OffsetIsExact(r);
    Window(rows, Limit(r), Offset(r))
  }

  /** Pages 1 to `n`, one after the other. */
  function Pages(rows: seq<Task>, size: int, n: nat): seq<Task>
    requires 1 <= size <= MAX_SIZE && n < TWO31
  {
    if n == 0 then [] else Pages(rows, size, n - 1) + PageOf(rows, PageRequest(n, size))
  }

  function Shorter(rows: seq<Task>, n: nat): seq<Task> {
    if n < |rows| then rows[..n] else rows
  }

  lemma {:induction false} PagesArePrefix(rows: seq<Task>, size: int, n: nat)
    requires 1 <= size <= MAX_SIZE && n < TWO31
    ensures Pages(rows, size, n) == Shorter(rows, n * size)
  {
    if n > 0 {
      PagesArePrefix(rows, size, n - 1);
      OffsetIsExact(PageRequest(n, size));
      NextWindow(rows, size, (n - 1) * size);
      assert (n - 1) * size + size == n * size;
    }
  }

  lemma NextWindow(rows: seq<Task>, size: nat, offset: nat)
    ensures Shorter(rows, offset) + Window(rows, size, offset) == Shorter(rows, offset + size)
  {
  }

  /**
   For every table, filter and order, the pages a request can ask for show exactly the sorted matching
   rows if and only if these fit in them. The reported count says which pages: up to it every page has
   rows, after it none, and together they show the listing.
   */
  lemma PagesPartition(table: seq<Task>, f: Filter, o: Order, r: PageRequest)
    requires Distinct(table) && Valid(r)
    ensures var rows, total := Listing(table, f, o), |Filtered(table, f)|;
            && |rows| == total
            && NewPagination(r, total).page == r.page && NewPagination(r, total).size == r.size && NewPagination(r, total).total == total
            && (Pages(rows, r.size, LAST_PAGE) == rows <==> total <= LAST_PAGE * r.size)
            && (total + r.size <= TWO63 ==>
                  var n := NewPagination(r, total).totalPages;
                  && 0 <= n && (PageOf(rows, r) == [] <==> r.page > n)
                  && Pages(rows, r.size, if n <= LAST_PAGE then n else LAST_PAGE) == Shorter(rows, LAST_PAGE * r.size))
  {
    var rows, total := Listing(table, f, o), |Filtered(table, f)|;
    ListingIsTheAnswer(table, f, o, []);
    PagesArePrefix(rows, r.size, LAST_PAGE);
    if total + r.size <= TWO63 {
      TotalPagesIsLeastIff(r, total);
      var n := NewPagination(r, total).totalPages;
      PageIsEmptyIff(rows, r, n);
      if n <= LAST_PAGE {
        PagesArePrefix(rows, r.size, n);
        Grows(n, LAST_PAGE, r.size);
      }
    }
  }

  lemma PageIsEmptyIff(rows: seq<Task>, r: PageRequest, n: nat)
    requires Valid(r) && |rows| <= n * r.size < |rows| + r.size
    ensures PageOf(rows, r) == [] <==> r.page > n
  {
    OffsetIsExact(r);
    WindowIsEmptyIff(rows, r.size, (r.page - 1) * r.size);
    if r.page > n {
      Grows(n, r.page - 1, r.size);
    } else {
      Grows(r.page, n, r.size);
      OnePageLess(r.page, r.size);
    }
  }

  lemma OnePageLess(page: int, size: int)
    ensures (page - 1) * size == page * size - size
  {
  }

  lemma WindowIsEmptyIff(rows: seq<Task>, limit: nat, offset: nat)
    requires limit > 0
    ensures Window(rows, limit, offset) == [] <==> |rows| <= offset
  {
  }
}
