/** Cursor pagination of the turn history (pageHistory and historyKey in daemon-go/hub/routes_history.go). */
module History {
  import Naming

  datatype Turn = Turn(timestamp: string, session: string, offset: nat, text: string)

  /** The `before` argument: the base64url text itself is an abstract bijection on keys, which are never empty. */
  datatype Cursor = NoCursor | Undecodable | At(key: string)

  function Zeros(n: nat): string {
    if n == 0 then "" else "0" + Zeros(n - 1)
  }

  /** The offset is padded to twelve digits. */
  function Padded(n: nat): string {
    var d := Naming.Decimal(n);
    if |d| < 12 then Zeros(12 - |d|) + d else d
  }

  function HistoryKey(t: Turn): (key: string)
    ensures key != ""
  {
    t.timestamp + "|" + t.session + "|" + Padded(t.offset)
  }

  // ---------------------------------------------------------------------------
  // The order on keys
  // ---------------------------------------------------------------------------

  predicate Less(a: string, b: string) {
    if b == "" then false
    else if a == "" then true
    else if a[0] != b[0] then a[0] < b[0]
    else Less(a[1..], b[1..])
  }

  lemma {:induction false} LessIsStrict(a: string)
    ensures !Less(a, a)
  {
    if a != "" {
      LessIsStrict(a[1..]);
    }
  }

  lemma {:induction false} LessIsTransitive(a: string, b: string, c: string)
    requires Less(a, b) && Less(b, c)
    ensures Less(a, c)
  {
    if a != "" && a[0] == b[0] && b[0] == c[0] {
      LessIsTransitive(a[1..], b[1..], c[1..]);
    }
  }

  lemma {:induction false} LessIsTotal(a: string, b: string)
    ensures Less(a, b) || a == b || Less(b, a)
  {
    if a != "" && b != "" && a[0] == b[0] {
      LessIsTotal(a[1..], b[1..]);
      assert a == [a[0]] + a[1..] && b == [b[0]] + b[1..];
    }
  }

  lemma {:induction false} LessAfterPrefix(prefix: string, a: string, b: string)
    ensures Less(prefix + a, prefix + b) <==> Less(a, b)
  {
    if prefix == "" {
      assert prefix + a == a && prefix + b == b;
    } else {
      assert (prefix + a)[1..] == prefix[1..] + a && (prefix + b)[1..] == prefix[1..] + b;
      LessAfterPrefix(prefix[1..], a, b);
    }
  }

  /** With heads of one length the heads decide, and the tails only when the heads are equal. */
  lemma {:induction false} HeadsDecide(a: string, b: string, u: string, v: string)
    requires |a| == |b|
    ensures Less(a + u, b + v) <==> Less(a, b) || (a == b && Less(u, v))
  {
    if a == "" {
      assert a + u == u && b + v == v;
    } else {
      assert (a + u)[1..] == a[1..] + u && (b + v)[1..] == b[1..] + v;
      assert a == [a[0]] + a[1..] && b == [b[0]] + b[1..];
      HeadsDecide(a[1..], b[1..], u, v);
    }
  }

  function Power10(k: nat): nat {
    if k == 0 then 1 else 10 * Power10(k - 1)
  }

  /** The last k decimal digits of n. */
  function Digits(n: nat, k: nat): string {
    if k == 0 then "" else Digits(n / 10, k - 1) + [Naming.Digit(n % 10)]
  }

  lemma {:induction false} ZerosAreDigits(k: nat)
    ensures |Zeros(k)| == k && |Digits(0, k)| == k && Digits(0, k) == Zeros(k)
    ensures Zeros(k) + "0" == "0" + Zeros(k)
  {
    if k > 0 {
      ZerosAreDigits(k - 1);
      assert Zeros(k) + "0" == "0" + (Zeros(k - 1) + "0");
      assert Digits(0, k) == Zeros(k - 1) + "0";
    }
  }

  lemma {:induction false} PaddingIsDigits(n: nat, k: nat)
    requires k >= 1 && n < Power10(k)
    ensures |Naming.Decimal(n)| <= k && Zeros(k - |Naming.Decimal(n)|) + Naming.Decimal(n) == Digits(n, k)
  {
    if n < 10 {
      ZerosAreDigits(k - 1);
      assert n / 10 == 0;
    } else {
      assert k > 1 && n / 10 < Power10(k - 1);
      PaddingIsDigits(n / 10, k - 1);
      var d := Naming.Decimal(n / 10);
      assert Zeros(k - 1 - |d|) + (d + [Naming.Digit(n % 10)]) == (Zeros(k - 1 - |d|) + d) + [Naming.Digit(n % 10)];
    }
  }

  lemma {:induction false} DigitsAreOrdered(m: nat, n: nat, k: nat)
    requires m < Power10(k) && n < Power10(k)
    ensures |Digits(m, k)| == |Digits(n, k)| == k
    ensures Less(Digits(m, k), Digits(n, k)) <==> m < n
    ensures Digits(m, k) == Digits(n, k) <==> m == n
  {
    if k > 0 {
      DigitsAreOrdered(m / 10, n / 10, k - 1);
      var a, b, x, y := Digits(m / 10, k - 1), Digits(n / 10, k - 1), [Naming.Digit(m % 10)], [Naming.Digit(n % 10)];
      HeadsDecide(a, b, x, y);
      assert Less(x, y) <==> m % 10 < n % 10;
      assert (a + x)[..k - 1] == a && (b + y)[..k - 1] == b && (a + x)[k - 1] == x[0] && (b + y)[k - 1] == y[0];
    }
  }

  /** The order on keys is the order of the turns: by timestamp, for timestamps of one length, then, within a session, by
      offset in the numeric sense, up to twelve digits. */
  lemma KeysOrderTurns(t: Turn, u: Turn)
    ensures |t.timestamp| == |u.timestamp| && Less(t.timestamp, u.timestamp) ==> Less(HistoryKey(t), HistoryKey(u))
    ensures t.timestamp == u.timestamp && t.session == u.session
            && t.offset < 1_000_000_000_000 && u.offset < 1_000_000_000_000 ==>
              (Less(HistoryKey(t), HistoryKey(u)) <==> t.offset < u.offset)
  {
    if |t.timestamp| == |u.timestamp| && Less(t.timestamp, u.timestamp) {
      var tail, rest := "|" + t.session + "|" + Padded(t.offset), "|" + u.session + "|" + Padded(u.offset);
      HeadsDecide(t.timestamp, u.timestamp, tail, rest);
      assert HistoryKey(t) == t.timestamp + tail && HistoryKey(u) == u.timestamp + rest;
    }
    if t.timestamp == u.timestamp && t.session == u.session
       && t.offset < 1_000_000_000_000 && u.offset < 1_000_000_000_000 {
      TwelveDigits(t.offset);
      TwelveDigits(u.offset);
      DigitsAreOrdered(t.offset, u.offset, 12);
      LessAfterPrefix(t.timestamp + "|" + t.session + "|", Padded(t.offset), Padded(u.offset));
    }
  }

  lemma PowerOfTwelve()
    ensures Power10(12) == 1_000_000_000_000
  {
    assert Power10(3) == 1_000;
    assert Power10(6) == 1_000_000;
    assert Power10(9) == 1_000_000_000;
  }

  lemma TwelveDigits(n: nat)
    requires n < 1_000_000_000_000
    ensures n < Power10(12) && Padded(n) == Digits(n, 12)
  {
    hide Power10, Digits;
    PowerOfTwelve();
    PaddingIsDigits(n, 12);
    var d := Naming.Decimal(n);
    if |d| == 12 {
      assert Zeros(0) == "" && "" + d == d;
    }
  }

  // ---------------------------------------------------------------------------
  // One page
  // ---------------------------------------------------------------------------

  function Older(turns: seq<Turn>, key: string): seq<Turn> {
    if turns == [] then []
    else
      var last := turns[|turns| - 1];
      Older(turns[..|turns| - 1], key) + if Less(HistoryKey(last), key) then [last] else []
  }

  /** What a cursor leaves of the list; one that does not decode leaves everything. */
  function Selected(turns: seq<Turn>, before: Cursor): seq<Turn> {
    if before.At? then Older(turns, before.key) else turns
  }

  datatype Page = Page(turns: seq<Turn>, next: Cursor)

  function PageAt(turns: seq<Turn>, limit: nat, before: Cursor): Page
    requires limit >= 1
  {
    var all := Selected(turns, before);
    if |all| > limit then Page(all[..limit], At(HistoryKey(all[limit - 1]))) else Page(all, NoCursor)
  }

  method PageHistory(turns: seq<Turn>, limit: nat, before: Cursor) returns (page: Page)
    requires limit >= 1
    ensures page == PageAt(turns, limit, before)
  {
    hide HistoryKey, Less;
    var filtered := turns;
    if before.At? {
      filtered := [];
      for i := 0 to |turns|
        invariant filtered == Older(turns[..i], before.key)
      {
        assert turns[..i + 1][..i] == turns[..i];
        if Less(HistoryKey(turns[i]), before.key) {
          filtered := filtered + [turns[i]];
        }
      }
      assert turns[..|turns|] == turns;
    }
    var more := |filtered| > limit;
    if |filtered| > limit {
      filtered := filtered[..limit];
    }
    if more && |filtered| > 0 {
      return Page(filtered, At(HistoryKey(filtered[|filtered| - 1])));
    }
    return Page(filtered, NoCursor);
  }

  // ---------------------------------------------------------------------------
  // Following the cursors
  // ---------------------------------------------------------------------------

  lemma {:induction false} OlderShrinks(turns: seq<Turn>, key: string, t: Turn)
    requires t in Older(turns, key)
    ensures |Older(turns, HistoryKey(t))| < |Older(turns, key)|
  {
    var last, init := turns[|turns| - 1], turns[..|turns| - 1];
    OlderIsOlder(turns, key);
    if Less(HistoryKey(last), HistoryKey(t)) {
      LessIsTransitive(HistoryKey(last), HistoryKey(t), key);
    }
    LessIsStrict(HistoryKey(t));
    if t in Older(init, key) {
      OlderShrinks(init, key, t);
    } else {
      OlderNoMore(init, key, HistoryKey(t));
    }
  }

  lemma {:induction false} OlderIsOlder(turns: seq<Turn>, key: string)
    ensures forall t :: t in Older(turns, key) ==> Less(HistoryKey(t), key)
  {
    if turns != [] {
      OlderIsOlder(turns[..|turns| - 1], key);
    }
  }

  lemma {:induction false} OlderNoMore(turns: seq<Turn>, key: string, lower: string)
    requires Less(lower, key)
    ensures |Older(turns, lower)| <= |Older(turns, key)|
  {
    if turns != [] {
      var last := turns[|turns| - 1];
      OlderNoMore(turns[..|turns| - 1], key, lower);
      if Less(HistoryKey(last), lower) {
        LessIsTransitive(HistoryKey(last), lower, key);
      }
    }
  }

  lemma {:induction false} OlderOfAll(turns: seq<Turn>, t: Turn)
    requires t in turns
    ensures |Older(turns, HistoryKey(t))| < |turns|
  {
    var last, init := turns[|turns| - 1], turns[..|turns| - 1];
    assert turns == init + [last];
    LessIsStrict(HistoryKey(t));
    if t in init {
      OlderOfAll(init, t);
    } else {
      OlderFits(init, HistoryKey(t));
    }
  }

  lemma {:induction false} OlderFits(turns: seq<Turn>, key: string)
    ensures |Older(turns, key)| <= |turns|
  {
    if turns != [] {
      OlderFits(turns[..|turns| - 1], key);
    }
  }

  /** Each cursor leaves strictly less than the one before, so following them ends. */
  lemma NextPageIsSmaller(turns: seq<Turn>, limit: nat, before: Cursor)
    requires limit >= 1 && PageAt(turns, limit, before).next.At?
    ensures |Selected(turns, PageAt(turns, limit, before).next)| < |Selected(turns, before)|
  {
    var all := Selected(turns, before);
    if before.At? {
      OlderShrinks(turns, before.key, all[limit - 1]);
    } else {
      OlderOfAll(turns, all[limit - 1]);
    }
  }

  /** The pages a client sees that follows `next_before` until there is none. */
  function Pages(turns: seq<Turn>, limit: nat, before: Cursor): seq<seq<Turn>>
    requires limit >= 1
    decreases |Selected(turns, before)|
  {
    var page := PageAt(turns, limit, before);
    if page.next.At? then
      NextPageIsSmaller(turns, limit, before);
      [page.turns] + Pages(turns, limit, page.next)
    else [page.turns]
  }

  function Joined(pages: seq<seq<Turn>>): seq<Turn> {
    if pages == [] then [] else pages[0] + Joined(pages[1..])
  }

  // ---------------------------------------------------------------------------
  // Sorted histories
  // ---------------------------------------------------------------------------

  /** Newest first; equal keys may occur. */
  ghost predicate Descending(turns: seq<Turn>) {
    forall i, j :: 0 <= i < j < |turns| ==> !Less(HistoryKey(turns[i]), HistoryKey(turns[j]))
  }

  ghost predicate StrictlyDescending(turns: seq<Turn>) {
    forall i, j :: 0 <= i < j < |turns| ==> Less(HistoryKey(turns[j]), HistoryKey(turns[i]))
  }

  /** No page boundary, counting from a, falls between two turns of equal key. */
  predicate SplitsNoTie(turns: seq<Turn>, limit: nat, a: nat)
    requires limit >= 1
    decreases |turns| - a
  {
    a + limit < |turns| ==>
      HistoryKey(turns[a + limit - 1]) != HistoryKey(turns[a + limit]) && SplitsNoTie(turns, limit, a + limit)
  }

  /** In a descending list the older turns are a suffix. */
  lemma {:induction false} OlderIsSuffix(turns: seq<Turn>, key: string, m: nat)
    requires Descending(turns) && m <= |turns|
    requires forall i :: 0 <= i < m ==> !Less(HistoryKey(turns[i]), key)
    requires m < |turns| ==> Less(HistoryKey(turns[m]), key)
    ensures Older(turns, key) == turns[m..]
  {
    hide HistoryKey, Less;
    if turns != [] {
      var last, init := turns[|turns| - 1], turns[..|turns| - 1];
      if m == |turns| {
        OlderIsSuffix(init, key, m - 1);
      } else {
        if m < |turns| - 1 {
          LessIsTotal(HistoryKey(last), HistoryKey(turns[m]));
          if Less(HistoryKey(last), HistoryKey(turns[m])) {
            LessIsTransitive(HistoryKey(last), HistoryKey(turns[m]), key);
          }
        }
        OlderIsSuffix(init, key, m);
        assert turns[m..] == init[m..] + [last];
      }
    }
  }

  /** Where the list resumes after the turn at position i. */
  lemma {:induction false} ResumesAt(turns: seq<Turn>, i: nat, m: nat) returns (b: nat)
    requires Descending(turns) && i < m <= |turns|
    requires forall k :: i <= k < m ==> HistoryKey(turns[k]) == HistoryKey(turns[i])
    ensures m <= b <= |turns|
    ensures Older(turns, HistoryKey(turns[i])) == turns[b..]
    ensures b == m <==> m == |turns| || HistoryKey(turns[m]) != HistoryKey(turns[i])
    decreases |turns| - m
  {
    hide HistoryKey, Less, Older;
    if m < |turns| && HistoryKey(turns[m]) == HistoryKey(turns[i]) {
      b := ResumesAt(turns, i, m + 1);
    } else {
      b := m;
      forall k | 0 <= k < m ensures !Less(HistoryKey(turns[k]), HistoryKey(turns[i])) {
        LessIsStrict(HistoryKey(turns[i]));
      }
      if m < |turns| {
        LessIsTotal(HistoryKey(turns[m]), HistoryKey(turns[i]));
      }
      OlderIsSuffix(turns, HistoryKey(turns[i]), m);
    }
  }

  lemma FullPage(turns: seq<Turn>, limit: nat, before: Cursor, a: nat)
    requires limit >= 1 && a <= |turns| && |turns| - a > limit
    requires Selected(turns, before) == turns[a..]
    ensures PageAt(turns, limit, before) == Page(turns[a..a + limit], At(HistoryKey(turns[a + limit - 1])))
  {
    hide HistoryKey, Selected;
    assert turns[a..][..limit] == turns[a..a + limit];
    assert turns[a..][limit - 1] == turns[a + limit - 1];
  }

  lemma PagesUnfold(turns: seq<Turn>, limit: nat, before: Cursor)
    requires limit >= 1
    ensures
      var page := PageAt(turns, limit, before);
      page.next.At? ==>
        && Pages(turns, limit, before) == [page.turns] + Pages(turns, limit, page.next)
        && Joined(Pages(turns, limit, before)) == page.turns + Joined(Pages(turns, limit, page.next))
  {
    hide PageAt, Selected;
    var page := PageAt(turns, limit, before);
    if page.next.At? {
      var rest := Pages(turns, limit, page.next);
      assert ([page.turns] + rest)[1..] == rest;
    }
  }

  /** The page at a cursor that leaves turns[a..], and the position b where the next one resumes. */
  lemma PageStep(turns: seq<Turn>, limit: nat, before: Cursor, a: nat) returns (b: nat)
    requires limit >= 1 && Descending(turns) && a <= |turns|
    requires Selected(turns, before) == turns[a..]
    requires |turns| - a > limit
    ensures a + limit <= b <= |turns|
    ensures b == a + limit <==> HistoryKey(turns[a + limit - 1]) != HistoryKey(turns[a + limit])
    ensures PageAt(turns, limit, before) == Page(turns[a..a + limit], At(HistoryKey(turns[a + limit - 1])))
    ensures Selected(turns, PageAt(turns, limit, before).next) == turns[b..]
    ensures Pages(turns, limit, before) == [turns[a..a + limit]] + Pages(turns, limit, PageAt(turns, limit, before).next)
    ensures Joined(Pages(turns, limit, before)) ==
              turns[a..a + limit] + Joined(Pages(turns, limit, PageAt(turns, limit, before).next))
  {
    hide Descending, HistoryKey, Less, PageAt, Pages, Joined, Older;
    FullPage(turns, limit, before, a);
    PagesUnfold(turns, limit, before);
    b := ResumesAt(turns, a + limit - 1, a + limit);
  }

  lemma LastPage(turns: seq<Turn>, limit: nat, before: Cursor, a: nat)
    requires limit >= 1 && a <= |turns| && |turns| - a <= limit
    requires Selected(turns, before) == turns[a..]
    ensures Pages(turns, limit, before) == [turns[a..]]
    ensures Joined(Pages(turns, limit, before)) == turns[a..]
  {
    assert [turns[a..]][1..] == [];
  }

  /** From a cursor that leaves turns[a..], the pages join to exactly that, unless a boundary splits a tie:
      then something is skipped. */
  lemma {:induction false} PagesFrom(turns: seq<Turn>, limit: nat, before: Cursor, a: nat)
    requires limit >= 1 && Descending(turns) && a <= |turns|
    requires Selected(turns, before) == turns[a..]
    ensures SplitsNoTie(turns, limit, a) ==> Joined(Pages(turns, limit, before)) == turns[a..]
    ensures !SplitsNoTie(turns, limit, a) ==> |Joined(Pages(turns, limit, before))| < |turns| - a
    decreases |turns| - a
  {
    hide Pages, PageAt, Selected, Joined, Descending, HistoryKey;
    if |turns| - a > limit {
      var b := PageStep(turns, limit, before, a);
      var next := PageAt(turns, limit, before).next;
      PagesFrom(turns, limit, next, b);
      assert turns[a..] == turns[a..a + limit] + turns[a + limit..];
    } else {
      LastPage(turns, limit, before, a);
    }
  }

  /** Following the cursors from the start yields exactly the history if and only if no page boundary separates
      two turns of equal key; else turns are lost. */
  lemma PagesCoverExactlyWhen(turns: seq<Turn>, limit: nat)
    requires limit >= 1 && Descending(turns)
    ensures Joined(Pages(turns, limit, NoCursor)) == turns <==> SplitsNoTie(turns, limit, 0)
    ensures !SplitsNoTie(turns, limit, 0) ==> |Joined(Pages(turns, limit, NoCursor))| < |turns|
  {
    assert turns[0..] == turns;
    PagesFrom(turns, limit, NoCursor, 0);
  }

  /** Two turns of one key, a page each: the second is never delivered. */
  lemma TiedTurnIsLost(t: Turn, u: Turn)
    requires HistoryKey(t) == HistoryKey(u)
    ensures Descending([t, u]) && Joined(Pages([t, u], 1, NoCursor)) == [t]
  {
    var turns, key := [t, u], HistoryKey(t);
    hide HistoryKey;
    LessIsStrict(key);
    assert turns[..1] == [t];
    assert Older([t], key) == [] && Older(turns, key) == [];
    assert PageAt(turns, 1, NoCursor) == Page([t], At(key));
    PagesUnfold(turns, 1, NoCursor);
    assert Pages(turns, 1, At(key)) == [[]];
    assert Joined([[]]) == [];
  }

  lemma {:induction false} StrictSplitsNoTie(turns: seq<Turn>, limit: nat, a: nat)
    requires limit >= 1 && StrictlyDescending(turns)
    ensures SplitsNoTie(turns, limit, a)
    decreases |turns| - a
  {
    if a + limit < |turns| {
      LessIsStrict(HistoryKey(turns[a + limit]));
      StrictSplitsNoTie(turns, limit, a + limit);
    }
  }

  lemma StrictIsDescending(turns: seq<Turn>)
    requires StrictlyDescending(turns)
    ensures Descending(turns)
  {
    forall i, j | 0 <= i < j < |turns| ensures !Less(HistoryKey(turns[i]), HistoryKey(turns[j])) {
      if Less(HistoryKey(turns[i]), HistoryKey(turns[j])) {
        LessIsTransitive(HistoryKey(turns[i]), HistoryKey(turns[j]), HistoryKey(turns[i]));
        LessIsStrict(HistoryKey(turns[i]));
      }
    }
  }

  /** c is the ceiling of n / limit, or one when n is zero. */
  predicate PageCount(n: nat, limit: nat, c: nat) {
    c >= 1 && n <= c * limit && (n > 0 ==> (c - 1) * limit < n) && (n == 0 ==> c == 1)
  }

  lemma {:induction false} StrictPageCount(turns: seq<Turn>, limit: nat, before: Cursor, a: nat)
    requires limit >= 1 && StrictlyDescending(turns) && a <= |turns|
    requires Selected(turns, before) == turns[a..]
    ensures PageCount(|turns| - a, limit, |Pages(turns, limit, before)|)
    decreases |turns| - a
  {
    hide Pages, PageAt, Selected, HistoryKey, Joined;
    StrictIsDescending(turns);
    if |turns| - a > limit {
      var b := PageStep(turns, limit, before, a);
      LessIsStrict(HistoryKey(turns[a + limit]));
      var next := PageAt(turns, limit, before).next;
      StrictPageCount(turns, limit, next, b);
      var c := |Pages(turns, limit, next)|;
      assert (c + 1) * limit == c * limit + limit && c * limit == (c - 1) * limit + limit;
    } else {
      LastPage(turns, limit, before, a);
    }
  }

  /** For distinct keys the chain yields the full history and ends after the ceiling of n / limit pages, at least one. */
  lemma StrictHistoryPages(turns: seq<Turn>, limit: nat)
    requires limit >= 1 && StrictlyDescending(turns)
    ensures Joined(Pages(turns, limit, NoCursor)) == turns
    ensures PageCount(|turns|, limit, |Pages(turns, limit, NoCursor)|)
  {
    assert turns[0..] == turns;
    StrictIsDescending(turns);
    StrictSplitsNoTie(turns, limit, 0);
    PagesCoverExactlyWhen(turns, limit);
    StrictPageCount(turns, limit, NoCursor, 0);
  }
}
