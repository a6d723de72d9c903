/**
Cutting a list of public rooms into pages, and the tokens that lead from page to page.
*/
module Pagination {
  import opened Wrappers

  const TWO63: int := 0x8000_0000_0000_0000

  predicate Int64(x: int) {
    -TWO63 <= x < TWO63
  }

  /** The sum of two int64 values wraps around. */
  function Wrap64(x: int): (r: int)
    requires -2 * TWO63 <= x < 2 * TWO63
    ensures Int64(r) && (r - x) % (2 * TWO63) == 0
    ensures Int64(x) ==> r == x
  {
    if x >= TWO63 then x - 2 * TWO63 else if x < -TWO63 then x + 2 * TWO63 else x
  }

  /** -1 for `prev` or `next` stands for no position. */
  datatype Page<T> = Page(chunk: seq<T>, prev: int, next: int)

  /** sliceInto; None where the slice expression is out of range and the program panics. */
  function SliceInto<T>(rooms: seq<T>, since: int, limit: int): Option<Page<T>>
    requires Int64(since) && Int64(limit)
  {
    var prev := if since > 0 then Wrap64(since - limit) else -1;
    var nextIndex := Wrap64(since + limit);
    var next := if |rooms| > nextIndex then nextIndex else -1;
    var from := if since < 0 then 0 else since;
    var to := if nextIndex > |rooms| then |rooms| else nextIndex;
    if from <= to then Some(Page(rooms[from..to], prev, next)) else None
  }

  /**
  For every offset and limit that a request can carry: the slice is out of range exactly for an offset past the
  end, for one whose sum with the limit overflows or falls short of it, and for a negative sum.
  */
  lemma PanicsExactlyWhen<T>(rooms: seq<T>, since: int, limit: int)
    requires Int64(since) && Int64(limit) && |rooms| < TWO63
    ensures SliceInto(rooms, since, limit).None? <==>
              || since > |rooms|
              || (since >= 0 && (limit < 0 || since + limit >= TWO63))
              || (since < 0 && -TWO63 <= since + limit < 0)
  {
    if since + limit >= TWO63 {
      assert Wrap64(since + limit) == since + limit - 2 * TWO63;
    } else if since + limit < -TWO63 {
      assert Wrap64(since + limit) == since + limit + 2 * TWO63;
    }
  }

  /** Offsets within the list whose sum with a positive limit does not overflow. */
  predicate Fits(n: nat, offset: nat, limit: nat) {
    n < TWO63 / 2 && limit > 0 && offset <= n && offset + limit < TWO63
  }

  /** A page holds the next `limit` rooms; its `next` moves on by exactly them, and the page there leads back. */
  lemma PageShape<T>(rooms: seq<T>, offset: nat, limit: nat)
    requires Fits(|rooms|, offset, limit)
    ensures var page := SliceInto(rooms, offset, limit);
            && page.Some?
            && page.value.prev == (if offset == 0 then -1 else offset - limit)
            && (page.value.next == -1 <==> offset + limit >= |rooms|)
            && (page.value.next == -1 ==> page.value.chunk == rooms[offset..])
            && (page.value.next != -1 ==>
                  && page.value.next == offset + limit && Fits(|rooms|, page.value.next, limit)
                  && page.value.chunk == rooms[offset..page.value.next]
                  && SliceInto(rooms, page.value.next, limit).Some?
                  && SliceInto(rooms, page.value.next, limit).value.prev == offset)
  {
  }

  // --- tokens --------------------------------------------------------------------------------------

  function Digit(d: nat): char
    requires d < 10
  {
    '0' + (d as char)
  }

  /** strconv.Itoa on naturals */
  function Itoa(n: nat): string {
    if n < 10 then [Digit(n)] else Itoa(n / 10) + [Digit(n % 10)]
  }

  function ParseDigits(s: string): Option<nat> {
    if s == [] then Some(0)
    else
      var last := s[|s| - 1];
      var rest := ParseDigits(s[..|s| - 1]);
      if rest.Some? && '0' <= last <= '9' then Some(10 * rest.value + ((last - '0') as nat)) else None
  }

  /** strconv.ParseInt(s, 10, 64) */
  function ParseInt(s: string): (r: Option<int>)
    ensures r.Some? ==> Int64(r.value)
  {
    if s == [] then None
    else
      var signed := s[0] == '-' || s[0] == '+';
      var digits := if signed then s[1..] else s;
      if digits == [] || ParseDigits(digits).None? then None
      else
        var n: int := ParseDigits(digits).value;
        var x: int := if s[0] == '-' then -n else n;
        if Int64(x) then Some(x) else None
  }

  /** strings.TrimPrefix(s, "T") */
  function TrimT(s: string): string {
    if s != [] && s[0] == 'T' then s[1..] else s
  }

  function Token(n: int): string {
    if n >= 0 then "T" + Itoa(n) else ""
  }

  lemma {:induction false} ItoaParses(n: nat)
    ensures Itoa(n) != [] && ParseDigits(Itoa(n)) == Some(n)
    ensures '0' <= Itoa(n)[0] <= '9'
    decreases n
  {
    var s := Itoa(n);
    if n < 10 {
      assert s[..|s| - 1] == [];
    } else {
      ItoaParses(n / 10);
      assert s[..|s| - 1] == Itoa(n / 10);
    }
  }

  /** Printing a position and parsing it back, with the "T" put on and taken off, changes nothing. */
  lemma TokenRoundTrip(n: nat)
    requires n < TWO63
    ensures TrimT(Token(n)) == Itoa(n) && ParseInt(TrimT(Token(n))) == Some(n)
  {
    ItoaParses(n);
    assert Token(n)[1..] == Itoa(n);
  }

  /** Only a leading "T" goes. */
  lemma TrimTExactly(s: string)
    ensures s == "T" + TrimT(s) || (s == TrimT(s) && (s == "" || s[0] != 'T'))
  {
  }

  predicate IsDigits(s: string) {
    forall k :: 0 <= k < |s| ==> '0' <= s[k] <= '9'
  }

  lemma {:induction false} DigitsParse(s: string)
    ensures ParseDigits(s).Some? <==> IsDigits(s)
  {
    if s != [] {
      DigitsParse(s[..|s| - 1]);
      DigitsSnoc(s);
    }
  }

  lemma DigitsSnoc(s: string)
    requires s != []
    ensures IsDigits(s) <==> IsDigits(s[..|s| - 1]) && '0' <= s[|s| - 1] <= '9'
  {
    var init := s[..|s| - 1];
    if IsDigits(init) && '0' <= s[|s| - 1] <= '9' {
      forall k | 0 <= k < |s| ensures '0' <= s[k] <= '9' {
        if k < |init| { assert init[k] == s[k]; }
      }
    }
  }

  /** The number that the digits of a numeral make, without its sign. */
  function Magnitude(s: string): string {
    if s != [] && (s[0] == '-' || s[0] == '+') then s[1..] else s
  }

  /**
  A number is an optional sign and at least one digit, nothing else, and within the range of an int64; a minus negates.
  */
  lemma ParseIntExactly(s: string)
    ensures ParseInt(s).Some? <==>
              var digits := Magnitude(s);
              && digits != [] && IsDigits(digits)
              && var n := ParseDigits(digits);
                 n.Some? && (n.value < TWO63 || (n.value == TWO63 && s[0] == '-'))
    ensures ParseInt(s).Some? ==>
              var n := ParseDigits(Magnitude(s));
              n.Some? && ParseInt(s).value == if s[0] == '-' then 0 - n.value else n.value as int
    ensures Offset("") == Some(0) && (s != "" ==> Offset(s) == ParseInt(s))
  {
    DigitsParse(Magnitude(s));
  }

  /** Every int64 has a numeral that is parsed to it. */
  lemma EveryNumberIsParsed(n: nat)
    requires n <= TWO63
    ensures n < TWO63 ==> ParseInt(Itoa(n)) == Some(n) && ParseInt("+" + Itoa(n)) == Some(n)
    ensures ParseInt("-" + Itoa(n)) == Some(0 - n)
  {
    ItoaParses(n);
    SignedParses(Itoa(n), n);
  }

  lemma SignedParses(digits: string, n: nat)
    requires digits != [] && ParseDigits(digits) == Some(n) && n <= TWO63
    ensures n < TWO63 ==> ParseInt("+" + digits) == Some(n)
    ensures ParseInt("-" + digits) == Some(0 - n)
  {
    assert ("+" + digits)[1..] == digits && ("-" + digits)[1..] == digits;
  }

  // --- the whole walk ----------------------------------------------------------------------------------

  /** The `since` parameter: empty means the start. */
  function Offset(since: string): (r: Option<int>)
    ensures r.Some? ==> Int64(r.value)
  {
    if since == "" then Some(0) else ParseInt(since)
  }

  /** For every list there is a `since` that a request can carry and that panics, whatever the limit. */
  lemma SomeSincePanics<T>(rooms: seq<T>, limit: int) returns (since: string)
    requires |rooms| < TWO63 - 1 && Int64(limit)
    ensures Offset(since).Some? && SliceInto(rooms, Offset(since).value, limit).None?
  {
    since := Itoa(|rooms| + 1);
    ItoaParses(|rooms| + 1);
    TokenRoundTrip(|rooms| + 1);
    PanicsExactlyWhen(rooms, |rooms| + 1, limit);
  }

  /** A negative `since` is parsed like any other, and can panic too. */
  lemma NegativeSincePanics<T>(rooms: seq<T>)
    requires |rooms| < TWO63
    ensures Offset("-5") == Some(-5) && SliceInto(rooms, -5, 3).None?
  {
    assert "-5"[1..] == "5";
    assert "5"[..0] == "";
    assert ParseDigits("5") == Some(5);
    PanicsExactlyWhen(rooms, -5, 3);
  }

  /** The position that a page's token stands for when it is sent back. */
  function ReadBack(position: int): (r: Option<int>)
    ensures r.Some? ==> Int64(r.value)
  {
    Offset(TrimT(Token(position)))
  }

  lemma ReadBackIsExact(position: nat)
    requires position < TWO63
    ensures ReadBack(position) == Some(position)
  {
    TokenRoundTrip(position);
    ItoaParses(position);
  }

  /** Sending back `next` and then the following page's `prev` leads to where one was. */
  lemma PrevLeadsBack<T>(rooms: seq<T>, offset: nat, limit: nat)
    requires Fits(|rooms|, offset, limit) && offset + limit < |rooms|
    ensures var following := ReadBack(SliceInto(rooms, offset, limit).value.next);
            && following.Some? && SliceInto(rooms, following.value, limit).Some?
            && ReadBack(SliceInto(rooms, following.value, limit).value.prev) == Some(offset)
  {
    PageShape(rooms, offset, limit);
    ReadBackIsExact(offset + limit);
    ReadBackIsExact(offset);
  }

  /** What a client gets for an offset: the rooms, and the offset that the next token stands for. */
  datatype Shown<T> = Shown(chunk: seq<T>, following: Option<int>)

  function Answer<T>(rooms: seq<T>, offset: int, limit: nat): Option<Shown<T>>
    requires Int64(limit) && Int64(offset)
  {
    var page := SliceInto(rooms, offset, limit);
    if page.None? then None
    else Some(Shown(page.value.chunk, if page.value.next < 0 then None else ReadBack(page.value.next)))
  }

  /** The pages seen by asking at `offset` and following `next` until there is none; at most `fuel` of them. */
  function Walk<T>(ask: int -> Option<Shown<T>>, offset: int, fuel: nat): seq<seq<T>>
    decreases fuel
  {
    if fuel == 0 || ask(offset).None? then []
    else
      var shown := ask(offset).value;
      [shown.chunk] + if shown.following.None? then [] else Walk(ask, shown.following.value, fuel - 1)
  }

  function Flatten<T>(pages: seq<seq<T>>): seq<T> {
    if pages == [] then [] else pages[0] + Flatten(pages[1..])
  }

  /** The plain cut: pages of `limit` rooms from `offset` on. */
  function Pages<T>(rooms: seq<T>, offset: nat, limit: nat): seq<seq<T>>
    requires offset <= |rooms| && limit > 0
    decreases |rooms| - offset
  {
    if offset + limit >= |rooms| then [rooms[offset..]]
    else [rooms[offset..offset + limit]] + Pages(rooms, offset + limit, limit)
  }

  /** The answer in plain terms: the next `limit` rooms, and the offset behind them if rooms are left. */
  function PlainAnswer<T>(rooms: seq<T>, offset: nat, limit: nat): Option<Shown<T>>
    requires offset <= |rooms|
  {
    if offset + limit >= |rooms| then Some(Shown(rooms[offset..], None))
    else Some(Shown(rooms[offset..offset + limit], Some(offset + limit)))
  }

  lemma AnswerIsPlain<T>(rooms: seq<T>, offset: nat, limit: nat)
    requires Fits(|rooms|, offset, limit)
    ensures Answer(rooms, offset, limit) == PlainAnswer(rooms, offset, limit)
  {
    PageShape(rooms, offset, limit);
    if offset + limit < |rooms| {
      ReadBackIsExact(offset + limit);
    }
  }

  lemma {:induction false} WalkIsTheCut<T>(ask: int -> Option<Shown<T>>, rooms: seq<T>, offset: nat, limit: nat,
                                           fuel: nat)
    requires Fits(|rooms|, offset, limit) && |rooms| - offset < fuel
    requires forall o: nat :: Fits(|rooms|, o, limit) ==> ask(o) == PlainAnswer(rooms, o, limit)
    ensures Walk(ask, offset, fuel) == Pages(rooms, offset, limit)
    decreases fuel
  {
    var next := offset + limit;
    if next < |rooms| {
      WalkIsTheCut(ask, rooms, next, limit, fuel - 1);
    }
  }

  lemma FlattenFirst<T>(page: seq<T>, pages: seq<seq<T>>)
    ensures Flatten([page] + pages) == page + Flatten(pages)
  {
    assert ([page] + pages)[1..] == pages;
  }

  lemma {:induction false} CutCovers<T>(rooms: seq<T>, offset: nat, limit: nat)
    requires offset <= |rooms| && limit > 0
    ensures Flatten(Pages(rooms, offset, limit)) == rooms[offset..]
    ensures |Pages(rooms, offset, limit)| <= |rooms| - offset + 1
    decreases |rooms| - offset
  {
    var next := offset + limit;
    if next >= |rooms| {
      FlattenFirst(rooms[offset..], []);
      assert [rooms[offset..]] + [] == [rooms[offset..]];
    } else {
      CutCovers(rooms, next, limit);
      FlattenFirst(rooms[offset..next], Pages(rooms, next, limit));
      assert rooms[offset..] == rooms[offset..next] + rooms[next..];
    }
  }

  /** Following `next` from the start visits every room exactly once, in order, and stops. */
  lemma WalkVisitsEachRoomOnce<T>(ask: int -> Option<Shown<T>>, rooms: seq<T>, limit: nat, fuel: nat)
    requires |rooms| < TWO63 / 2 && 0 < limit < TWO63 && |rooms| < fuel
    requires forall o :: Int64(o) ==> ask(o) == Answer(rooms, o, limit)
    ensures Flatten(Walk(ask, 0, fuel)) == rooms
    ensures |Walk(ask, 0, fuel)| <= |rooms| + 1
  {
    forall o: nat | Fits(|rooms|, o, limit) ensures ask(o) == PlainAnswer(rooms, o, limit) {
      AnswerIsPlain(rooms, o, limit);
    }
    WalkIsTheCut(ask, rooms, 0, limit, fuel);
    CutCovers(rooms, 0, limit);
  }
}
