/** Keyset paging of one subject's payments. */
module Lists {
  import opened Digits
  import opened Paging
  import opened Ranking
  import opened Roles
  import opened Text
  import opened Wrappers

  const MAX_INT64: int := 0x7fff_ffff_ffff_ffff

  datatype PaymentRow = PaymentRow(
    txHash: string,
    logIndex: nat,
    blockNumber: nat,
    payer: string,
    payee: string,
    facilitator: string,
    amountUsdc: nat,
    facilitatorKnown: bool)

  datatype Query = Query(address: string, role: Role, knownOnly: bool)

  /** A position in the list; a client may send any. */
  datatype Cursor = Cursor(block: int, hash: string, index: int)

  datatype Page = Page(rows: seq<PaymentRow>, next: string)

  predicate Matches(q: Query, r: PaymentRow) {
    && (match q.role
        case PayerRole => r.payer == q.address
        case PayeeRole => r.payee == q.address
        case FacilitatorRole => r.facilitator == q.address)
    && (!q.knownOnly || r.facilitatorKnown)
  }

  /** The address plays the role asked for, and under the known lens the facilitator is known. */
  lemma MatchesMeans(q: Query, r: PaymentRow)
    ensures Matches(q, r) <==>
              && (q.role == PayerRole ==> q.address == r.payer)
              && (q.role == PayeeRole ==> q.address == r.payee)
              && (q.role == FacilitatorRole ==> q.address == r.facilitator)
              && (q.knownOnly ==> r.facilitatorKnown)
  {
  }

  // ----- the order

  function CursorOf(r: PaymentRow): Cursor {
    Cursor(r.blockNumber, r.txHash, r.logIndex)
  }

  /** The predicate of the query, spelled out the way it is: r comes strictly after the cursor in the list. */
  predicate Past(r: PaymentRow, c: Cursor) {
    r.blockNumber < c.block
    || (r.blockNumber == c.block
        && (StringLess(r.txHash, c.hash) || (r.txHash == c.hash && r.logIndex < c.index)))
  }

  /** ORDER BY block_number DESC, tx_hash DESC, log_index DESC: a stands before b. */
  predicate Newer(a: PaymentRow, b: PaymentRow) {
    if a.blockNumber != b.blockNumber then a.blockNumber > b.blockNumber
    else if a.txHash != b.txHash then StringLess(b.txHash, a.txHash)
    else a.logIndex > b.logIndex
  }

  /** Later blocks first; within a block the greater hash, within a transaction the greater log index. */
  lemma NewerMeans(a: PaymentRow, b: PaymentRow)
    ensures Newer(a, b) <==>
              || a.blockNumber > b.blockNumber
              || (a.blockNumber == b.blockNumber && StringLess(b.txHash, a.txHash))
              || (a.blockNumber == b.blockNumber && a.txHash == b.txHash && a.logIndex > b.logIndex)
  {
    StringLessIsTotal(a.txHash, a.txHash);
  }

  /** The spelled-out predicate is the order: a row is past a key just when it stands after it. */
  lemma PastIsAfter(a: PaymentRow, b: PaymentRow)
    ensures Past(b, CursorOf(a)) <==> Newer(a, b)
  {
    StringLessIsTotal(a.txHash, a.txHash);
    StringLessIsTotal(b.txHash, a.txHash);
  }

  /** The primary key, and what the chain promises of its parts. */
  ghost predicate ValidTable(rows: set<PaymentRow>) {
    && (forall r, s :: r in rows && s in rows && CursorOf(r) == CursorOf(s) ==> r == s)
    && (forall r :: r in rows ==> ':' !in r.txHash && r.blockNumber <= MAX_INT64 && r.logIndex <= MAX_INT64)
  }

  lemma NewerTransitive(a: PaymentRow, b: PaymentRow, c: PaymentRow)
    requires Newer(a, b) && Newer(b, c)
    ensures Newer(a, c)
  {
    if StringLess(c.txHash, b.txHash) && StringLess(b.txHash, a.txHash) {
      StringLessIsTransitive(c.txHash, b.txHash, a.txHash);
      StringLessIsTotal(c.txHash, b.txHash);
    }
  }

  lemma NewestFirstSorts(rows: set<PaymentRow>)
    requires ValidTable(rows)
    ensures Sortable(Newer, rows)
  {
    forall x, y | x in rows && y in rows
      ensures x != y ==> Newer(x, y) || Newer(y, x)
      ensures Newer(x, y) ==> !Newer(y, x)
    {
      StringLessIsTotal(x.txHash, y.txHash);
    }
    forall x, y, z | x in rows && y in rows && z in rows && Newer(x, y) && Newer(y, z)
      ensures Newer(x, z)
    {
      NewerTransitive(x, y, z);
    }
    TotalOrderSorts(Newer, rows);
  }

  // ----- the cursor text

  function PrintCursor(c: Cursor): string
    requires c.block >= 0 && c.index >= 0
  {
    Print(c.block) + ":" + c.hash + ":" + Print(c.index)
  }

  function ParseInt(s: string): Option<int> {
    var negative := s != "" && s[0] == '-';
    var body := if s != "" && (s[0] == '-' || s[0] == '+') then s[1..] else s;
    if body == "" || !AllDigits(body) then None
    else
      var n: int := Value(body);
      var v: int := if negative then 0 - n else n;
      if -MAX_INT64 - 1 <= v <= MAX_INT64 then Some(v) else None
  }

  /** A decimal number with an optional sign, within 64 bits. */
  lemma ParseIntMeans(s: string, v: int)
    ensures ParseInt(s) == Some(v) <==>
              && -0x8000_0000_0000_0000 <= v < 0x8000_0000_0000_0000
              && exists sign, digits: string :: Numeral(s, sign, digits, v)
  {
    if ParseInt(s) == Some(v) {
      ParsedIsNumeral(s, v);
    }
    if sign, digits: string :| Numeral(s, sign, digits, v) {
      NumeralParses(s, sign, digits, v);
    }
  }

  lemma ParsedIsNumeral(s: string, v: int)
    requires ParseInt(s) == Some(v)
    ensures exists sign, digits: string :: Numeral(s, sign, digits, v)
  {
    var sign := if s[0] == '-' then "-" else if s[0] == '+' then "+" else "";
    var digits := if sign == "" then s else s[1..];
    assert Numeral(s, sign, digits, v);
  }

  lemma NumeralParses(s: string, sign: string, digits: string, v: int)
    requires Numeral(s, sign, digits, v)
    ensures ParseInt(s) == Some(v) <==> -0x8000_0000_0000_0000 <= v < 0x8000_0000_0000_0000
  {
    if sign == "" {
      assert s == digits && IsDigit(s[0]);
    } else {
      assert s[0] == sign[0] && s[1..] == digits;
    }
  }

  predicate Numeral(s: string, sign: string, digits: string, v: int) {
    && s == sign + digits && sign in {"", "+", "-"} && digits != "" && AllDigits(digits)
    && var n: int := Value(digits);
       v == if sign == "-" then -n else n
  }

  datatype ParsedCursor = FirstPage | At(cursor: Cursor) | Malformed

  function CursorFrom(s: string): ParsedCursor {
    if s == "" then FirstPage
    else
      var i := IndexOf(s, ':');
      if i == |s| then Malformed
      else
        var rest := s[i+1..];
        var j := IndexOf(rest, ':');
        if j == |rest| then Malformed
        else
          var block, index := ParseInt(s[..i]), ParseInt(rest[j+1..]);
          if block.None? || index.None? then Malformed
          else At(Cursor(block.value, rest[..j], index.value))
  }

  /** The text is the key in its three parts: block, hash, index, with no separator in the first two. */
  ghost predicate Spells(s: string, c: Cursor) {
    exists block, index ::
      && s == block + [':'] + (c.hash + [':'] + index)
      && ':' !in block && ':' !in c.hash
      && ParseInt(block) == Some(c.block) && ParseInt(index) == Some(c.index)
  }

  lemma SpelledBy(s: string, c: Cursor, block: string, index: string)
    requires s == block + [':'] + (c.hash + [':'] + index) && ':' !in block && ':' !in c.hash
    requires ParseInt(block) == Some(c.block) && ParseInt(index) == Some(c.index)
    ensures Spells(s, c)
  {
  }

  lemma ParsedIsSpelled(s: string, c: Cursor)
    requires CursorFrom(s) == At(c)
    ensures Spells(s, c)
  {
    var i := IndexOf(s, ':');
    var block, rest := s[..i], s[i+1..];
    var j := IndexOf(rest, ':');
    SidesJoin(s, ':');
    SidesJoin(rest, ':');
    SpelledBy(s, c, block, rest[j+1..]);
  }

  lemma SpelledIsParsed(s: string, c: Cursor, block: string, index: string)
    requires s == block + [':'] + (c.hash + [':'] + index) && ':' !in block && ':' !in c.hash
    requires ParseInt(block) == Some(c.block) && ParseInt(index) == Some(c.index)
    ensures CursorFrom(s) == At(c)
  {
    var rest := c.hash + [':'] + index;
    CutAtSeparator(s, block, rest, ':');
    CutAtSeparator(rest, c.hash, index, ':');
  }

  /** A text is taken for a position exactly when it spells that position. */
  lemma CursorMeans(s: string, c: Cursor)
    ensures CursorFrom(s) == At(c) <==> Spells(s, c)
  {
    if CursorFrom(s) == At(c) {
      ParsedIsSpelled(s, c);
    }
    if block, index :| s == block + [':'] + (c.hash + [':'] + index) && ':' !in block && ':' !in c.hash
                       && ParseInt(block) == Some(c.block) && ParseInt(index) == Some(c.index) {
      SpelledIsParsed(s, c, block, index);
    }
  }

  method ParseCursor(s: string) returns (p: ParsedCursor)
    ensures p == CursorFrom(s)
    ensures p.FirstPage? <==> s == ""
    ensures forall c :: p == At(c) <==> Spells(s, c)
    ensures p.Malformed? <==> s != "" && forall c :: !Spells(s, c)
  {
    p := SplitCursor(s);
    forall c ensures p == At(c) <==> Spells(s, c) {
      CursorMeans(s, c);
    }
  }

  method SplitCursor(s: string) returns (p: ParsedCursor)
    ensures p == CursorFrom(s)
  {
    if s == "" {
      return FirstPage;
    }
    var i := IndexOf(s, ':');
    if i == |s| {
      return Malformed;
    }
    var rest := s[i+1..];
    var j := IndexOf(rest, ':');
    if j == |rest| {
      return Malformed;
    }
    var block := ParseInt(s[..i]);
    if block.None? {
      return Malformed;
    }
    var index := ParseInt(rest[j+1..]);
    if index.None? {
      return Malformed;
    }
    return At(Cursor(block.value, rest[..j], index.value));
  }

  lemma ParsePrinted(n: nat)
    requires n <= MAX_INT64
    ensures ParseInt(Print(n)) == Some(n)
  {
    ValueOfPrint(n);
    assert IsDigit(Print(n)[0]);
  }

  lemma PrintHasNoSeparator(n: nat)
    ensures ':' !in Print(n)
  {
    forall x | x in Print(n) ensures x != ':' {
      assert IsDigit(x);
    }
  }

  /** A cursor printed for a row parses back to that row's key. */
  lemma CursorRoundTrip(c: Cursor)
    requires 0 <= c.block <= MAX_INT64 && 0 <= c.index <= MAX_INT64 && ':' !in c.hash
    ensures CursorFrom(PrintCursor(c)) == At(c)
  {
    var block, index := Print(c.block), Print(c.index);
    PrintHasNoSeparator(c.block);
    assert PrintCursor(c) == block + [':'] + (c.hash + [':'] + index);
    ParsePrinted(c.block);
    ParsePrinted(c.index);
    SpelledIsParsed(PrintCursor(c), c, block, index);
  }

  // ----- one page

  ghost function Matching(table: set<PaymentRow>, q: Query): set<PaymentRow> {
    set r | r in table && Matches(q, r)
  }

  ghost function After(rows: set<PaymentRow>, p: ParsedCursor): set<PaymentRow> {
    if p.At? then set r | r in rows && Past(r, p.cursor) else rows
  }

  lemma PartsAreValid(table: set<PaymentRow>, q: Query, p: ParsedCursor)
    requires ValidTable(table)
    ensures ValidTable(Matching(table, q)) && ValidTable(After(Matching(table, q), p))
    ensures Sortable(Newer, Matching(table, q)) && Sortable(Newer, After(Matching(table, q), p))
  {
    NewestFirstSorts(Matching(table, q));
    NewestFirstSorts(After(Matching(table, q), p));
  }

  /** What the database answers to a query limited to n rows. */
  ghost function Answer(table: set<PaymentRow>, q: Query, p: ParsedCursor, n: nat): seq<PaymentRow>
    requires ValidTable(table)
  {
    PartsAreValid(table, q, p);
    Top(Newer, After(Matching(table, q), p), n)
  }

  function Trimmed(rows: seq<PaymentRow>, limit: nat): Page
    requires limit >= 1
  {
    if |rows| > limit then Page(rows[..limit], PrintCursor(CursorOf(rows[limit-1]))) else Page(rows, "")
  }

  ghost function PageOf(table: set<PaymentRow>, q: Query, p: ParsedCursor, limit: nat): Page
    requires ValidTable(table) && limit >= 1
  {
    Trimmed(Answer(table, q, p, limit + 1), limit)
  }

  method ReadPage(answer: seq<PaymentRow>, limit: nat) returns (page: Page)
    requires limit >= 1
    ensures page == Trimmed(answer, limit)
  {
    var rows := [];
    for i := 0 to |answer|
      invariant rows == answer[..i]
    {
      rows := rows + [answer[i]];
    }
    assert answer[..|answer|] == answer;
    var next := "";
    if |rows| > limit {
      rows := rows[..limit];
      var last := rows[|rows|-1];
      next := PrintCursor(Cursor(last.blockNumber, last.txHash, last.logIndex));
    }
    return Page(rows, next);
  }

  /** None is the malformed-cursor error; ask stands for the database as it is now. */
  method Payments(ghost table: set<PaymentRow>, q: Query, before: string, limit: nat,
                  ask: (ParsedCursor, nat) -> seq<PaymentRow>)
    returns (r: Option<Page>)
    requires ValidTable(table) && limit >= 1
    requires forall p: ParsedCursor, n: nat :: ask(p, n) == Answer(table, q, p, n)
    ensures r.None? <==> CursorFrom(before).Malformed?
    ensures r.Some? ==> r.value == PageOf(table, q, CursorFrom(before), limit)
  {
    var p := ParseCursor(before);
    if p.Malformed? {
      return None;
    }
    var page := ReadPage(ask(p, limit + 1), limit);
    return Some(page);
  }

  lemma CursorOfRow(table: set<PaymentRow>, r: PaymentRow)
    requires ValidTable(table) && r in table
    ensures CursorFrom(PrintCursor(CursorOf(r))) == At(CursorOf(r))
    ensures PrintCursor(CursorOf(r)) != ""
  {
    CursorRoundTrip(CursorOf(r));
  }

  /** Cutting the row too many off leaves the first rows, and Next names the last of them. */
  lemma TrimmedIsSheet(rest: set<PaymentRow>, limit: nat)
    requires ValidTable(rest) && Sortable(Newer, rest) && limit >= 1
    ensures var page := Trimmed(Top(Newer, rest, limit + 1), limit);
            && IsSheet(Newer, rest, limit, Sheet(page.rows, page.next != ""))
            && (page.next != "" ==>
                  && page.rows != []
                  && CursorFrom(page.next) == At(CursorOf(page.rows[|page.rows|-1])))
  {
    var top := Top(Newer, rest, limit + 1);
    TopIsPrefix(Newer, rest, limit);
    TopIsPrefix(Newer, rest, limit + 1);
    if |rest| > limit {
      TopMembers(Newer, rest, limit + 1);
      CursorOfRow(rest, top[limit-1]);
      assert top[..limit] == Top(Newer, rest, limit);
    }
  }

  // ----- following Next

  /** A place that a cursor handed out by an earlier page stands for. */
  function Place(from: Option<PaymentRow>): ParsedCursor {
    if from.Some? then At(CursorOf(from.value)) else FirstPage
  }

  function SheetOf(page: Page): Sheet<PaymentRow> {
    Sheet(page.rows, page.next != "")
  }

  lemma PageIsSheet(table: set<PaymentRow>, q: Query, from: Option<PaymentRow>, limit: nat)
    requires ValidTable(table) && limit >= 1
    ensures var page := PageOf(table, q, Place(from), limit);
            && IsSheet(Newer, Beyond(Newer, Matching(table, q), from), limit, SheetOf(page))
            && (page.next != "" ==>
                  && page.rows != []
                  && CursorFrom(page.next) == Place(Some(page.rows[|page.rows|-1])))
  {
    var rest := Beyond(Newer, Matching(table, q), from);
    if from.Some? {
      forall r ensures Past(r, CursorOf(from.value)) <==> Newer(from.value, r) {
        PastIsAfter(from.value, r);
      }
    }
    assert rest == After(Matching(table, q), Place(from));
    PartsAreValid(table, q, Place(from));
    TrimmedIsSheet(rest, limit);
  }

  /** Each page is asked for with the Next of the page before, from the table as it is then. */
  ghost predicate Follows(tables: seq<set<PaymentRow>>, q: Query, before: string, limit: nat, pages: seq<Page>)
    requires limit >= 1
    decreases |pages|
  {
    && |tables| == |pages| >= 1
    && ValidTable(tables[0])
    && pages[0] == PageOf(tables[0], q, CursorFrom(before), limit)
    && (|pages| > 1 ==> pages[0].next != "" && Follows(tables[1..], q, pages[0].next, limit, pages[1..]))
  }

  function Sheets(pages: seq<Page>): (r: seq<Sheet<PaymentRow>>)
    ensures |r| == |pages|
    ensures forall i :: 0 <= i < |r| ==> r[i] == SheetOf(pages[i])
  {
    if pages == [] then [] else [SheetOf(pages[0])] + Sheets(pages[1..])
  }

  ghost function MatchingEach(tables: seq<set<PaymentRow>>, q: Query): (r: seq<set<PaymentRow>>)
    ensures |r| == |tables|
    ensures forall i :: 0 <= i < |r| ==> r[i] == Matching(tables[i], q)
  {
    if tables == [] then [] else [Matching(tables[0], q)] + MatchingEach(tables[1..], q)
  }

  lemma {:induction false} FollowsIsChain(tables: seq<set<PaymentRow>>, q: Query, before: string,
                                          from: Option<PaymentRow>, limit: nat, pages: seq<Page>)
    requires limit >= 1 && Follows(tables, q, before, limit, pages) && CursorFrom(before) == Place(from)
    ensures Chain(Newer, MatchingEach(tables, q), from, limit, Sheets(pages))
    decreases |pages|
  {
    PageIsSheet(tables[0], q, from, limit);
    if |pages| > 1 {
      var last := pages[0].rows[|pages[0].rows|-1];
      FollowsIsChain(tables[1..], q, pages[0].next, Some(last), limit, pages[1..]);
    }
  }

  lemma NewerIsTransitive()
    ensures Transitive(Newer)
  {
    forall a, b, c | Newer(a, b) && Newer(b, c) ensures Newer(a, c) {
      NewerTransitive(a, b, c);
    }
  }

  /**
   Following Next from the empty cursor, whatever is inserted between the pages: no row
   is shown twice or out of order, only matches are shown, and once the last page is
   reached no match present from the first page on has been missed.
   */
  lemma FollowingNext(tables: seq<set<PaymentRow>>, q: Query, limit: nat, pages: seq<Page>)
    requires limit >= 1 && Follows(tables, q, "", limit, pages) && OnlyGrows(tables)
    ensures Increasing(Newer, AllRows(Sheets(pages)))
    ensures forall r :: r in AllRows(Sheets(pages)) ==> r in Matching(tables[|tables|-1], q)
    ensures pages[|pages|-1].next == "" ==>
              forall r :: r in Matching(tables[0], q) ==> r in AllRows(Sheets(pages))
  {
    var parts := MatchingEach(tables, q);
    FollowsIsChain(tables, q, "", None, limit, pages);
    NewerIsTransitive();
    forall i, j | 0 <= i <= j < |parts| ensures parts[i] <= parts[j] {
      assert tables[i] <= tables[j];
    }
    FollowingChain(Newer, parts, None, limit, Sheets(pages));
  }

  /**
   While the table stands still, the pages put together are the whole list sorted newest
   first, each row once; and there are no more full pages than the matches fill.
   */
  lemma PagingIsTheSortedList(table: set<PaymentRow>, tables: seq<set<PaymentRow>>, q: Query, limit: nat,
                              pages: seq<Page>)
    requires limit >= 1 && ValidTable(table) && (forall i :: 0 <= i < |tables| ==> tables[i] == table)
    requires Follows(tables, q, "", limit, pages)
    ensures (|pages| - 1) * limit <= |Matching(table, q)|
    ensures Sortable(Newer, Matching(table, q))
    ensures pages[|pages|-1].next == "" ==>
              AllRows(Sheets(pages)) == Ordered(Newer, Matching(table, q))
  {
    FollowsIsChain(tables, q, "", None, limit, pages);
    NewerIsTransitive();
    PartsAreValid(table, q, FirstPage);
    ChainIsTheSortedList(Newer, Matching(table, q), MatchingEach(tables, q), limit, Sheets(pages));
  }
}
