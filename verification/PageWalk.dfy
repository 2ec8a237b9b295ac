/** Page cursors: how the client derives the next one, and the walk a caller makes by following them. */
module PageWalk {
  import opened Wrappers

  const U64_MAX: nat := 0xffff_ffff_ffff_ffff

  type u64 = x: nat | x <= U64_MAX

  function SaturatingMul(a: u64, b: u64): u64 {
    if a * b > U64_MAX then U64_MAX else a * b
  }

  function CheckedAdd(a: u64, b: u64): Option<u64> {
    if a + b > U64_MAX then None else Some(a + b)
  }

  // ----- decimal text -----

  function Digit(d: nat): char
    requires d < 10
  {
    '0' + d as char
  }

  function Decimal(n: nat): string {
    if n < 10 then [Digit(n)] else Decimal(n / 10) + [Digit(n % 10)]
  }

  /** The value of a run of digits, or nothing once it passes the width or meets another character. */
  function ParseDigits(s: string): Option<u64>
    decreases |s|
  {
    if s == [] then Some(0)
    else
      var c := s[|s| - 1];
      var high := ParseDigits(s[..|s| - 1]);
      if high.None? || !('0' <= c <= '9') || high.value * 10 + (c - '0') as nat > U64_MAX then None
      else Some(high.value * 10 + (c - '0') as nat)
  }

  /** Unsigned integer parsing: one leading plus sign is accepted, the empty string is not. */
  function ParseU64(s: string): Option<u64> {
    if s == "" || s == "+" then None
    else if s[0] == '+' then ParseDigits(s[1..])
    else ParseDigits(s)
  }

  lemma {:induction false} DecimalParses(n: nat)
    requires n <= U64_MAX
    ensures |Decimal(n)| > 0 && '0' <= Decimal(n)[0] <= '9'
    ensures ParseDigits(Decimal(n)) == Some(n)
  {
    if n < 10 {
      assert Decimal(n)[..0] == [];
    } else {
      DecimalParses(n / 10);
      var s := Decimal(n);
      assert s[..|s| - 1] == Decimal(n / 10) && s[|s| - 1] == Digit(n % 10);
      assert s[0] == Decimal(n / 10)[0];
    }
  }

  /** Printing a number and reading it back gives the number. */
  lemma ParsePrinted(n: nat)
    requires n <= U64_MAX
    ensures ParseU64(Decimal(n)) == Some(n)
  {
    DecimalParses(n);
  }

  /** The digits without leading zeros. */
  function Stripped(s: string): string
    decreases |s|
  {
    if |s| > 1 && s[0] == '0' then Stripped(s[1..]) else s
  }

  lemma {:induction false} StrippedMore(s: string, c: char)
    requires s != ""
    ensures Stripped(s + [c]) == if Stripped(s) == "0" then [c] else Stripped(s) + [c]
    decreases |s|
  {
    assert (s + [c])[1..] == s[1..] + [c];
    if |s| > 1 && s[0] == '0' {
      StrippedMore(s[1..], c);
    } else if s == "0" {
      assert (s + [c])[1..] == [c];
    }
  }

  lemma {:induction false} DigitsArePrinted(s: string, n: nat)
    requires s != "" && ParseDigits(s) == Some(n)
    ensures Stripped(s) == Decimal(n)
    decreases |s|
  {
    var high, c := s[..|s| - 1], s[|s| - 1];
    assert s == high + [c];
    if high == "" {
      assert ParseDigits(high) == Some(0);
    } else {
      DigitsArePrinted(high, ParseDigits(high).value);
      StrippedMore(high, c);
      ZeroPrintsAlone(ParseDigits(high).value);
    }
  }

  lemma ZeroPrintsAlone(n: nat)
    ensures Decimal(n) == "0" <==> n == 0
    ensures n < 10 ==> Decimal(n) == [Digit(n)]
    ensures |Decimal(n)| > 0
  {
    if n >= 10 { assert |Decimal(n / 10)| > 0; }
  }

  /** Only decimal digits, after at most one plus sign, are read as a number, and reading one
      and printing it back gives the same digits without leading zeros. */
  lemma PrintedParsed(s: string, n: nat)
    requires ParseU64(s) == Some(n)
    ensures s != "" && Stripped(if s[0] == '+' then s[1..] else s) == Decimal(n)
  {
    DigitsArePrinted(if s[0] == '+' then s[1..] else s, n);
  }

  /** Leading zeros do not change what is read. */
  lemma {:induction false} LeadingZero(s: string)
    ensures ParseDigits("0" + s) == ParseDigits(s)
    decreases |s|
  {
    var zero := "0" + s;
    if s == "" {
      assert zero[..|zero| - 1] == "";
    } else {
      LeadingZero(s[..|s| - 1]);
      assert zero[..|zero| - 1] == "0" + s[..|s| - 1];
      assert zero[|zero| - 1] == s[|s| - 1];
    }
  }

  lemma {:induction false} StrippedParses(s: string)
    ensures ParseDigits(Stripped(s)) == ParseDigits(s)
    decreases |s|
  {
    if |s| > 1 && s[0] == '0' {
      StrippedParses(s[1..]);
      LeadingZero(s[1..]);
      assert s == "0" + s[1..];
    }
  }

  /** A text is read as `n` exactly when, less one plus sign and then its leading zeros, it is `n` printed. */
  lemma ParsedIff(s: string, n: nat)
    requires n <= 0xffff_ffff_ffff_ffff
    ensures ParseU64(s) == Some(n) <==>
            s != "" && Stripped(if s[0] == '+' then s[1..] else s) == Decimal(n)
  {
    if ParseU64(s) == Some(n) { PrintedParsed(s, n); }
    if s != "" && Stripped(if s[0] == '+' then s[1..] else s) == Decimal(n) {
      StrippedParses(if s[0] == '+' then s[1..] else s);
      DecimalParses(n);
    }
  }

  function Pow10(k: nat): nat {
    if k == 0 then 1 else 10 * Pow10(k - 1)
  }

  lemma {:induction false} DecimalLength(n: nat, k: nat)
    requires k > 0 && n < Pow10(k)
    ensures 1 <= |Decimal(n)| <= k
    ensures forall i | 0 <= i < |Decimal(n)| :: '0' <= Decimal(n)[i] <= '9'
    decreases k
  {
    if n >= 10 {
      assert n < 10 * Pow10(k - 1);
      assert k > 1;
      DecimalLength(n / 10, k - 1);
    }
  }

  lemma U64HasTwentyDigits()
    ensures U64_MAX < Pow10(20)
  {
    assert Pow10(5) == 100_000;
    assert Pow10(10) == 10_000_000_000;
    assert Pow10(15) == 1_000_000_000_000_000;
  }

  // ----- cursors -----

  datatype PaginationMode = Unpaged | PageLimit | SearchAfter

  datatype MistCursor = MistCursor(operationId: string, origin: string, mode: PaginationMode, value: string)

  const MAX_OPERATION_ID_BYTES := 256
  const MAX_CURSOR_BYTES := 4096

  /** How many bytes a text takes in UTF-8. */
  function Bytes(s: string): nat
    decreases |s|
  {
    if s == "" then 0
    else
      var c := s[0] as int;
      (if c < 0x80 then 1 else if c < 0x800 then 2 else if c < 0x1_0000 then 3 else 4) + Bytes(s[1..])
  }

  /** Every character counts by the bytes it takes, from one for ASCII to four. */
  lemma {:induction false} BytesAdd(s: string, c: char)
    ensures Bytes(s + [c]) == Bytes(s) + Bytes([c])
    ensures c as int < 0x80 ==> Bytes([c]) == 1
    ensures 0x80 <= c as int < 0x800 ==> Bytes([c]) == 2
    ensures 0x800 <= c as int < 0x1_0000 ==> Bytes([c]) == 3
    ensures 0x1_0000 <= c as int ==> Bytes([c]) == 4
    ensures Bytes("") == 0
    decreases |s|
  {
    assert [c][1..] == "";
    if s == "" {
      assert s + [c] == [c];
    } else {
      assert (s + [c])[1..] == s[1..] + [c];
      BytesAdd(s[1..], c);
    }
  }

  datatype CursorError = BadOperationId | BadMode | BadLength | BadPage

  datatype CursorResult = Accepted(cursor: MistCursor) | Rejected(why: CursorError)

  function NewCursor(operationId: string, origin: string, mode: PaginationMode, value: string): CursorResult {
    if operationId == "" || Bytes(operationId) > MAX_OPERATION_ID_BYTES then Rejected(BadOperationId)
    else if mode.Unpaged? then Rejected(BadMode)
    else if value == "" || Bytes(value) > MAX_CURSOR_BYTES then Rejected(BadLength)
    else if mode.PageLimit? && ParseU64(value) in {None, Some(0)} then Rejected(BadPage)
    else Accepted(MistCursor(operationId, origin, mode, value))
  }

  function Accept(result: CursorResult): Option<MistCursor> {
    if result.Accepted? then Some(result.cursor) else None
  }

  datatype PageInfo = PageInfo(page: Option<u64>, limit: Option<u64>, total: Option<u64>)

  /** `searchAfter` is the value found in the body's `next` link, if there is one. */
  function DeriveNextCursor(operationId: string, origin: string, pagination: PaginationMode,
                            searchAfter: Option<string>, page: Option<PageInfo>): Option<MistCursor>
  {
    match pagination
    case Unpaged => None
    case SearchAfter =>
      if searchAfter.None? || searchAfter.value == "" then None
      else Accept(NewCursor(operationId, origin, SearchAfter, searchAfter.value))
    case PageLimit =>
      if page.None? || page.value.page.None? || page.value.limit.None? || page.value.total.None? then None
      else
        var current, limit, total := page.value.page.value, page.value.limit.value, page.value.total.value;
        if limit == 0 || SaturatingMul(current, limit) >= total then None
        else
          var next := CheckedAdd(current, 1);
          if next.None? then None else Accept(NewCursor(operationId, origin, PageLimit, Decimal(next.value)))
  }

  /** The test in 64 bits agrees with the test in unbounded arithmetic. */
  lemma SaturatingAgrees(page: u64, limit: u64, total: u64)
    ensures SaturatingMul(page, limit) >= total <==> page * limit >= total
  {
  }

  /** Where the test lets the walk go on, the next page number exists. */
  lemma IncrementNeverFails(page: u64, limit: u64, total: u64)
    requires limit >= 1 && page * limit < total
    ensures CheckedAdd(page, 1) == Some(page + 1)
  {
    AtLeastItself(page, limit);
    hide *;
    NextFits(page, total, page * limit);
  }

  lemma AtLeastItself(page: nat, limit: nat)
    requires limit >= 1
    ensures page <= page * limit
  {
  }

  lemma NextFits(page: u64, total: u64, reached: nat)
    requires page <= reached < total
    ensures CheckedAdd(page, 1) == Some(page + 1)
  {
  }

  lemma {:induction false} AsciiBytes(s: string)
    requires forall i | 0 <= i < |s| :: s[i] as int < 0x80
    ensures Bytes(s) == |s|
    decreases |s|
  {
    if s != "" { AsciiBytes(s[1..]); }
  }

  /** Every positive page number, printed, passes cursor construction. */
  lemma PagesAreAccepted(operationId: string, origin: string, page: nat)
    requires operationId != "" && Bytes(operationId) <= MAX_OPERATION_ID_BYTES && 0 < page <= U64_MAX
    ensures NewCursor(operationId, origin, PageLimit, Decimal(page)) ==
            Accepted(MistCursor(operationId, origin, PageLimit, Decimal(page)))
  {
    ParsePrinted(page);
    U64HasTwentyDigits();
    DecimalLength(page, 20);
    AsciiBytes(Decimal(page));
  }

  /** A page cursor is derived exactly when all three numbers came with the response and pages are
      left, and it names the next page. */
  lemma DerivesNextPage(operationId: string, origin: string, info: Option<PageInfo>, body: Option<string>)
    requires operationId != "" && Bytes(operationId) <= 256
    ensures
      var cursor := DeriveNextCursor(operationId, origin, PageLimit, body, info);
      && (cursor.Some? <==>
          && info.Some? && info.value.page.Some? && info.value.limit.Some? && info.value.total.Some?
          && info.value.limit.value >= 1
          && info.value.page.value * info.value.limit.value < info.value.total.value)
      && (cursor.Some? ==>
          && cursor.value == MistCursor(operationId, origin, PageLimit, Decimal(info.value.page.value + 1))
          && ParseU64(cursor.value.value) == Some(info.value.page.value + 1))
  {
    if info.Some? && info.value.page.Some? && info.value.limit.Some? && info.value.total.Some? {
      var PageInfo(Some(page), Some(limit), Some(total)) := info.value;
      SaturatingAgrees(page, limit, total);
      if limit >= 1 && page * limit < total {
        IncrementNeverFails(page, limit, total);
        PagesAreAccepted(operationId, origin, page + 1);
        ParsePrinted(page + 1);
      }
    }
    hide NewCursor;
    hide Decimal;
    hide ParseU64;
  }

  /** A search cursor is derived exactly when the `next` link holds a value that is not empty and fits,
      and it carries that value as it stands. */
  lemma DerivesSearchAfter(operationId: string, origin: string, value: string, page: Option<PageInfo>)
    requires operationId != "" && Bytes(operationId) <= 256
    ensures
      var cursor := DeriveNextCursor(operationId, origin, SearchAfter, Some(value), page);
      && (cursor.Some? <==> value != "" && Bytes(value) <= 4096)
      && (cursor.Some? ==>
          && cursor.value == MistCursor(operationId, origin, SearchAfter, value)
          && forall query ::
               EffectiveQuery(query, cursor.value) == Some(query["search_after" := value]))
    ensures DeriveNextCursor(operationId, origin, SearchAfter, None, page).None?
    ensures DeriveNextCursor(operationId, origin, Unpaged, Some(value), page).None?
  {
    hide Bytes;
  }

  /** Which values make a cursor: not empty, within the cap, and for a page walk the text of a positive
      64-bit number. */
  lemma NewCursorIff(operationId: string, origin: string, mode: PaginationMode, value: string)
    requires operationId != "" && Bytes(operationId) <= 256 && !mode.Unpaged?
    ensures
      NewCursor(operationId, origin, mode, value).Accepted? <==>
        && value != "" && Bytes(value) <= 4096
        && (mode.PageLimit? ==>
              exists n | 0 < n <= 0xffff_ffff_ffff_ffff ::
                Stripped(if value[0] == '+' then value[1..] else value) == Decimal(n))
  {
    if value != "" && mode.PageLimit? {
      var parsed := ParseU64(value);
      if parsed.Some? {
        ParsedIff(value, parsed.value);
        ZeroPrintsAlone(parsed.value);
      }
      forall n | 0 < n <= 0xffff_ffff_ffff_ffff && Stripped(if value[0] == '+' then value[1..] else value) == Decimal(n)
        ensures ParseU64(value) == Some(n)
      {
        ParsedIff(value, n);
      }
    }
    hide Bytes;
    hide ParseU64;
    hide Stripped;
    hide Decimal;
  }

  /** A cursor may continue only the operation, origin and mode it was made for. */
  predicate ValidFor(cursor: MistCursor, operationId: string, origin: string, pagination: PaginationMode) {
    cursor.operationId == operationId && cursor.origin == origin && cursor.mode == pagination
  }

  function CursorQueryKey(mode: PaginationMode): Option<string> {
    match mode
    case Unpaged => None
    case PageLimit => Some("page")
    case SearchAfter => Some("search_after")
  }

  /** The query a continuation sends: the stored one, with the cursor's value in place of the old. */
  function EffectiveQuery(query: map<string, string>, cursor: MistCursor): Option<map<string, string>> {
    var key := CursorQueryKey(cursor.mode);
    if key.None? then None else Some(query[key.value := cursor.value])
  }

  /** A derived cursor may continue exactly the operation, origin and mode it was derived for, passes its own
      validation and can always be sent; the request keeps the
      stored query but for one value, the continuation's. */
  lemma DerivedCursorContinues(operationId: string, origin: string, pagination: PaginationMode,
                               searchAfter: Option<string>,
                               page: Option<PageInfo>, query: map<string, string>)
    requires DeriveNextCursor(operationId, origin, pagination, searchAfter, page).Some?
    ensures
      var cursor := DeriveNextCursor(operationId, origin, pagination, searchAfter, page).value;
      && (forall id, from, mode ::
            ValidFor(cursor, id, from, mode) <==> id == operationId && from == origin && mode == pagination)
      && NewCursor(operationId, origin, pagination, cursor.value) == Accepted(cursor)
      && EffectiveQuery(query, cursor).Some?
      && (pagination.PageLimit? ==>
            && "page" in EffectiveQuery(query, cursor).value
            && ParseU64(EffectiveQuery(query, cursor).value["page"]) == Some(page.value.page.value + 1))
      && CursorQueryKey(cursor.mode).Some?
      && (var own := CursorQueryKey(cursor.mode).value;
          && EffectiveQuery(query, cursor).value.Keys == query.Keys + {own}
          && EffectiveQuery(query, cursor).value[own] == cursor.value
          && forall key | key in query && key != own :: EffectiveQuery(query, cursor).value[key] == query[key])
  {
    if pagination.PageLimit? { ParsePrinted(page.value.page.value + 1); }
    hide Decimal;
    hide ParseU64;
    hide Bytes;
  }

  // ----- the walk -----

  /** The pages requested by following cursors from `page`, when Mist echoes the page asked for
      and keeps reporting the same limit and total. */
  function Walk(operationId: string, origin: string, page: u64, limit: u64, total: u64): seq<u64>
    requires operationId != "" && Bytes(operationId) <= MAX_OPERATION_ID_BYTES && limit >= 1
    decreases if page * limit < total then total - page * limit else 0
  {
    var info := PageInfo(Some(page), Some(limit), Some(total));
    var cursor := DeriveNextCursor(operationId, origin, PageLimit, None, Some(info));
    if cursor.None? then [page]
    else
      DerivesNextPage(operationId, origin, Some(info), None);
      FurtherAlong(page, limit);
      [page] + Walk(operationId, origin, ParseU64(cursor.value.value).value, limit, total)
  }

  lemma FurtherAlong(page: nat, limit: nat)
    ensures (page + 1) * limit == page * limit + limit
  {
  }

  /** How many pages a listing has: at least one, even when it is empty. */
  function PageCount(limit: nat, total: nat): nat
    requires limit >= 1
  {
    if total == 0 then 1 else (total + limit - 1) / limit
  }

  lemma {:induction false} WalkFromPage(operationId: string, origin: string, page: u64, limit: u64, total: u64)
    requires operationId != "" && Bytes(operationId) <= MAX_OPERATION_ID_BYTES && limit >= 1
    requires 1 <= page <= PageCount(limit, total)
    ensures
      var pages := Walk(operationId, origin, page, limit, total);
      |pages| == PageCount(limit, total) + 1 - page && forall i | 0 <= i < |pages| :: pages[i] == page + i
    decreases PageCount(limit, total) - page
  {
    DerivesNextPage(operationId, origin, Some(PageInfo(Some(page), Some(limit), Some(total))), None);
    MorePagesIff(page, limit, total);
    if page * limit < total {
      WalkFromPage(operationId, origin, page + 1, limit, total);
    }
  }

  lemma MorePagesIff(page: nat, limit: nat, total: nat)
    requires limit >= 1 && page >= 1
    ensures page * limit < total <==> page < PageCount(limit, total)
  {
    if total > 0 {
      var count := (total + limit - 1) / limit;
      DivisionBounds(total + limit - 1, limit, count);
      if page < count { Monotone(page + 1, count, limit); } else { Monotone(count, page, limit); }
    } else {
      Monotone(0, page, limit);
    }
  }

  lemma DivisionBounds(n: nat, d: nat, q: nat)
    requires d >= 1 && q == n / d
    ensures q * d <= n < (q + 1) * d
  {
  }

  lemma Monotone(a: nat, b: nat, d: nat)
    requires a <= b
    ensures a * d <= b * d
  {
  }

  /** Following cursors from the first page asks for every page once, in order, and stops. */
  lemma WalkAsksForEveryPageOnce(operationId: string, origin: string, limit: u64, total: u64)
    requires operationId != "" && Bytes(operationId) <= MAX_OPERATION_ID_BYTES && limit >= 1
    ensures Walk(operationId, origin, 1, limit, total) == seq(PageCount(limit, total), i requires 0 <= i => i + 1)
  {
    MorePagesIff(1, limit, total);
    assert PageCount(limit, total) >= 1 by { if total > 0 { assert total + limit - 1 >= limit; } }
    WalkFromPage(operationId, origin, 1, limit, total);
  }
}
