/**
 Keyset pagination (query_audit, list_page, list_for_campaign): a page is the next `limit` rows below the
 cursor in descending (timestamp, id) order, and a full page carries its last key as the next cursor.
 */
module Paging {
  import opened Types

  datatype Key = Key(ts: Time, id: nat)

  predicate Less(a: Key, b: Key) {
    a.ts < b.ts || (a.ts == b.ts && a.id < b.id)
  }

  predicate IsMax(s: set<Key>, m: Key) {
    m in s && forall x :: x in s ==> x == m || Less(x, m)
  }

  lemma {:induction false} MaxExists(s: set<Key>)
    requires s != {}
    ensures exists m :: IsMax(s, m)
    decreases |s|
  {
    var x :| x in s;
    if s == {x} {
      assert IsMax(s, x);
    } else {
      MaxExists(s - {x});
      var m :| IsMax(s - {x}, m);
      var w := if Less(m, x) then x else m;
      forall y | y in s ensures y == w || Less(y, w) {
        assert y == x || y == m || Less(y, m);
      }
      assert IsMax(s, w);
    }
  }

  ghost function Max(s: set<Key>): (m: Key)
    requires s != {}
    ensures IsMax(s, m)
  {
    MaxExists(s);
    var m :| IsMax(s, m);
    m
  }

  /** ORDER BY ts DESC, id DESC. */
  ghost function Ranked(s: set<Key>): (r: seq<Key>)
    ensures |r| == |s|
    ensures forall x :: x in r <==> x in s
    decreases |s|
  {
    if s == {} then [] else [Max(s)] + Ranked(s - {Max(s)})
  }

  lemma {:induction false} RankedDescends(s: set<Key>, i: nat, j: nat)
    requires i < j < |s|
    ensures Less(Ranked(s)[j], Ranked(s)[i])
    decreases |s|
  {
    if i == 0 {
      assert Ranked(s)[j] in Ranked(s - {Max(s)});
    } else {
      RankedDescends(s - {Max(s)}, i - 1, j - 1);
    }
  }

  /** WHERE (ts, id) < cursor. */
  function Below(s: set<Key>, cursor: Option<Key>): set<Key> {
    set x | x in s && (cursor.None? || Less(x, cursor.value))
  }

  /** One page: the first `limit` rows below the cursor. */
  ghost function Page(s: set<Key>, cursor: Option<Key>, limit: nat): seq<Key> {
    var rows := Ranked(Below(s, cursor));
    if limit <= |rows| then rows[..limit] else rows
  }

  function NextCursor(page: seq<Key>, limit: nat): Option<Key> {
    if |page| == limit && page != [] then Some(page[|page|-1]) else None
  }

  /** The greatest rows below the cursor, in descending order, as many as fit. */
  lemma PageMeans(s: set<Key>, cursor: Option<Key>, limit: nat)
    requires limit > 0
    ensures var page := Page(s, cursor, limit);
            && |page| <= limit
            && (forall i, j :: 0 <= i < j < |page| ==> Less(page[j], page[i]))
            && (forall x :: x in page ==> x in Below(s, cursor))
            && (forall x :: x in Below(s, cursor) ==> x in page || (|page| == limit && Less(x, page[limit-1])))
  {
    var rows, page := Below(s, cursor), Page(s, cursor, limit);
    forall i, j | 0 <= i < j < |page| ensures Less(page[j], page[i]) {
      RankedDescends(rows, i, j);
    }
    forall x | x in rows ensures x in page || (|page| == limit && Less(x, page[limit-1])) {
      assert x in Ranked(rows);
      var i :| 0 <= i < |Ranked(rows)| && Ranked(rows)[i] == x;
      if i < |page| {
        assert page[i] == x;
      } else {
        RankedDescends(rows, limit - 1, i);
      }
    }
  }

  const MAX_LIMIT: int := 500

  datatype Answer = BadLimit | Rows(page: seq<Key>, next: Option<Key>)

  /** query_audit over the rows its filters let through. */
  ghost function QueryAudit(s: set<Key>, cursor: Option<Key>, limit: int): Answer {
    if limit <= 0 || limit > MAX_LIMIT then BadLimit
    else Rows(Page(s, cursor, limit), NextCursor(Page(s, cursor, limit), limit))
  }

  lemma BelowMax(s: set<Key>)
    requires s != {}
    ensures Below(s, Some(Max(s))) == s - {Max(s)}
  {
  }

  lemma BelowSmaller(s: set<Key>, k: Key)
    requires s != {} && k in s && k != Max(s)
    ensures Below(s, Some(k)) == Below(s - {Max(s)}, Some(k))
  {
  }

  /** Ranking takes the greatest row first. */
  lemma RankedHead(s: set<Key>)
    requires s != {}
    ensures Ranked(s)[0] == Max(s) && Ranked(s)[1..] == Ranked(s - {Max(s)})
  {
    assert Ranked(s) == [Max(s)] + Ranked(s - {Max(s)});
  }

  lemma TailIndex(r: seq<Key>, tail: seq<Key>, i: nat)
    requires 1 < i <= |r| && r[1..] == tail
    ensures r[i-1] == tail[i-2] && r[i..] == tail[i-1..]
  {
  }

  /** The rows after the first `i` are exactly the rows below the i-th. */
  lemma {:induction false} RestIsBelow(s: set<Key>, i: nat)
    requires 0 < i <= |s|
    ensures Ranked(s)[i..] == Ranked(Below(s, Some(Ranked(s)[i-1])))
    decreases |s|
  {
    RankedHead(s);
    if i == 1 {
      BelowMax(s);
    } else {
      var tail := Ranked(s - {Max(s)});
      TailIndex(Ranked(s), tail, i);
      RestIsBelow(s - {Max(s)}, i - 1);
      assert tail[i-2] in tail;
      BelowSmaller(s, tail[i-2]);
    }
  }

  lemma BelowTwice(s: set<Key>, cursor: Option<Key>, k: Key)
    requires k in Below(s, cursor)
    ensures Below(Below(s, cursor), Some(k)) == Below(s, Some(k))
  {
  }

  lemma CutAt(rows: set<Key>, limit: nat)
    requires 0 < limit <= |rows|
    ensures var k := Ranked(rows)[limit-1];
            k in rows && Ranked(Below(rows, Some(k))) == Ranked(rows)[limit..] && |Below(rows, Some(k))| == |rows| - limit
  {
    RestIsBelow(rows, limit);
    var k := Ranked(rows)[limit-1];
    assert k in Ranked(rows);
    assert |Ranked(Below(rows, Some(k)))| == |Below(rows, Some(k))|;
  }

  lemma NextOfFull(page: seq<Key>, rows: seq<Key>, limit: nat)
    requires 0 < limit <= |rows| && page == rows[..limit]
    ensures NextCursor(page, limit) == Some(rows[limit-1]) && page[limit-1] == rows[limit-1]
  {
  }

  /** What the next page draws from, when there is one. */
  lemma NextPageSource(s: set<Key>, cursor: Option<Key>, limit: nat)
    requires limit > 0 && limit <= |Below(s, cursor)|
    ensures var page := Page(s, cursor, limit);
            && NextCursor(page, limit) == Some(page[limit-1])
            && Ranked(Below(s, NextCursor(page, limit))) == Ranked(Below(s, cursor))[limit..]
            && |Below(s, NextCursor(page, limit))| == |Below(s, cursor)| - limit
  {
    var rows := Ranked(Below(s, cursor));
    NextOfFull(Page(s, cursor, limit), rows, limit);
    CutAt(Below(s, cursor), limit);
    BelowTwice(s, cursor, rows[limit-1]);
  }

  /** Pages needed for `n` rows: a full page is always followed by another one. */
  function PageCount(n: nat, limit: nat): nat
    requires limit > 0
  {
    if n < limit then 1 else 1 + PageCount(n - limit, limit)
  }

  /** Following next_cursor from `cursor` until it is null. */
  ghost function Walk(s: set<Key>, cursor: Option<Key>, limit: nat): (pages: seq<seq<Key>>)
    requires limit > 0
    ensures |pages| == PageCount(|Below(s, cursor)|, limit)
    decreases |Below(s, cursor)|
  {
    var page := Page(s, cursor, limit);
    var next := NextCursor(page, limit);
    if next.None? then [page]
    else
      NextPageSource(s, cursor, limit);
      [page] + Walk(s, next, limit)
  }

  function Flat(pages: seq<seq<Key>>): seq<Key> {
    if pages == [] then [] else pages[0] + Flat(pages[1..])
  }

  lemma FlatCons(page: seq<Key>, rest: seq<seq<Key>>)
    ensures Flat([page] + rest) == page + Flat(rest)
  {
    assert ([page] + rest)[1..] == rest;
  }

  /** The last page is short, so it is everything that is left. */
  lemma LastPage(s: set<Key>, cursor: Option<Key>, limit: nat)
    requires limit > 0 && NextCursor(Page(s, cursor, limit), limit).None?
    ensures Page(s, cursor, limit) == Ranked(Below(s, cursor)) && |Below(s, cursor)| < limit
    ensures Walk(s, cursor, limit) == [Page(s, cursor, limit)]
  {
  }

  /** A full page is followed by the walk from its last key. */
  lemma FullPage(s: set<Key>, cursor: Option<Key>, limit: nat) returns (next: Option<Key>)
    requires limit > 0 && NextCursor(Page(s, cursor, limit), limit).Some?
    ensures limit <= |Below(s, cursor)| && Page(s, cursor, limit) == Ranked(Below(s, cursor))[..limit]
    ensures Ranked(Below(s, next)) == Ranked(Below(s, cursor))[limit..]
    ensures |Below(s, next)| == |Below(s, cursor)| - limit
    ensures Walk(s, cursor, limit) == [Page(s, cursor, limit)] + Walk(s, next, limit)
  {
    NextPageSource(s, cursor, limit);
    next := NextCursor(Page(s, cursor, limit), limit);
  }

  lemma TakeDrop(rows: seq<Key>, n: nat)
    requires n <= |rows|
    ensures rows[..n] + rows[n..] == rows
  {
  }

  lemma {:induction false} WalkFlat(s: set<Key>, cursor: Option<Key>, limit: nat)
    requires limit > 0
    ensures Flat(Walk(s, cursor, limit)) == Ranked(Below(s, cursor))
    decreases |Below(s, cursor)|
  {
    var page := Page(s, cursor, limit);
    if NextCursor(page, limit).None? {
      LastPage(s, cursor, limit);
      FlatCons(page, []);
      assert [page] + [] == [page];
    } else {
      var next := FullPage(s, cursor, limit);
      WalkFlat(s, next, limit);
      FlatCons(page, Walk(s, next, limit));
      TakeDrop(Ranked(Below(s, cursor)), limit);
    }
  }

  lemma Multiples(l: nat, d: int)
    requires l > 0
    ensures d >= 1 ==> l * d >= l
    ensures d <= -1 ==> l * d + l <= 0
  {
    assert d >= 1 ==> l * d == l + l * (d - 1) && l * (d - 1) >= 0;
    assert d <= -1 ==> l * d + l == l * (d + 1) && l * (d + 1) <= 0;
  }

  lemma DivUnique(n: nat, l: nat, q: nat, r: nat)
    requires 0 < l && n == l * q + r && r < l
    ensures n / l == q
  {
    var d := n / l - q;
    assert l * d == r - n % l;
    Multiples(l, d);
  }

  /** n / limit + 1 pages. */
  lemma {:induction false} PageCountIs(n: nat, limit: nat)
    requires limit > 0
    ensures PageCount(n, limit) == n / limit + 1
  {
    if n < limit {
      DivUnique(n, limit, 0, n);
    } else {
      PageCountIs(n - limit, limit);
      var q, r := (n - limit) / limit, (n - limit) % limit;
      assert limit * (q + 1) == limit * q + limit;
      DivUnique(n, limit, q + 1, r);
    }
  }

  /**
   A walk from the start with any limit shows exactly the rows, each once, in strictly descending order, in
   n / limit + 1 pages.
   */
  lemma WalkShowsAll(s: set<Key>, limit: nat)
    requires limit > 0
    ensures Flat(Walk(s, None, limit)) == Ranked(s)
    ensures |Walk(s, None, limit)| == |s| / limit + 1
    ensures forall x :: x in Flat(Walk(s, None, limit)) <==> x in s
    ensures forall i, j :: 0 <= i < j < |Ranked(s)| ==>
              var newer, older := Ranked(s)[i], Ranked(s)[j];
              newer.ts > older.ts || (newer.ts == older.ts && newer.id > older.id)
  {
    assert Below(s, None) == s;
    WalkFlat(s, None, limit);
    PageCountIs(|s|, limit);
    forall i, j | 0 <= i < j < |Ranked(s)| ensures Less(Ranked(s)[j], Ranked(s)[i]) {
      RankedDescends(s, i, j);
    }
  }

  /** Rows inserted at or above the cursor leave every later page as it was. */
  lemma {:induction false} InsertsAboveUnseen(s: set<Key>, added: set<Key>, cursor: Key, limit: nat)
    requires limit > 0 && forall x :: x in added ==> !Less(x, cursor)
    ensures Walk(s + added, Some(cursor), limit) == Walk(s, Some(cursor), limit)
    decreases |Below(s, Some(cursor))|
  {
    assert Below(s + added, Some(cursor)) == Below(s, Some(cursor));
    var page := Page(s, Some(cursor), limit);
    var next := NextCursor(page, limit);
    if next.Some? {
      NextPageSource(s, Some(cursor), limit);
      assert next.value in Below(s, Some(cursor));
      InsertsAboveUnseen(s, added, next.value, limit);
    }
  }

  // ---- the calls list: rows move up while an operator pages --------------------------------------

  type Table = map<nat, Time>

  function Keys(t: Table): set<Key> {
    set id | id in t :: Key(t[id], id)
  }

  /** updated_at only ever rises. */
  predicate OnlyRises(t: Table, later: Table) {
    forall id :: id in t && id in later ==> t[id] <= later[id]
  }

  predicate Rising(tables: seq<Table>) {
    forall i, j :: 0 <= i < j < |tables| ==> OnlyRises(tables[i], tables[j])
  }

  /** The cursor with which page `i` is fetched, from the table as it was at fetch `i - 1`. */
  ghost function CursorAt(tables: seq<Table>, limit: nat, i: nat): Option<Key>
    requires i <= |tables|
    decreases i, 0
  {
    if i == 0 then None else NextCursor(PageAt(tables, limit, i - 1), limit)
  }

  ghost function PageAt(tables: seq<Table>, limit: nat, i: nat): seq<Key>
    requires i < |tables|
    decreases i, 1
  {
    Page(Keys(tables[i]), CursorAt(tables, limit, i), limit)
  }

  /** The walk goes on: pages 0 to `j` are all fetched by a cursor. */
  ghost predicate Continues(tables: seq<Table>, limit: nat, j: nat)
    requires j < |tables|
  {
    forall i :: 0 < i <= j ==> CursorAt(tables, limit, i).Some?
  }

  lemma PageAbove(s: set<Key>, cursor: Option<Key>, limit: nat, a: nat)
    requires limit > 0 && a < |Page(s, cursor, limit)| && NextCursor(Page(s, cursor, limit), limit).Some?
    ensures !Less(Page(s, cursor, limit)[a], NextCursor(Page(s, cursor, limit), limit).value)
  {
    var b := Below(s, cursor);
    if a < limit - 1 {
      RankedDescends(b, a, limit - 1);
    }
  }

  lemma PageBelow(s: set<Key>, cursor: Option<Key>, limit: nat, a: nat)
    requires a < |Page(s, cursor, limit)|
    ensures Page(s, cursor, limit)[a] in s && (cursor.Some? ==> Less(Page(s, cursor, limit)[a], cursor.value))
  {
    assert Page(s, cursor, limit)[a] in Ranked(Below(s, cursor));
  }

  /** A cursor that goes on is the last row of the page before. */
  lemma CursorIsLast(tables: seq<Table>, limit: nat, j: nat)
    requires limit > 0 && 0 < j < |tables| && CursorAt(tables, limit, j).Some?
    ensures var page := PageAt(tables, limit, j - 1); page != [] && CursorAt(tables, limit, j) == Some(page[|page|-1])
  {
  }

  predicate AtMost(a: Key, b: Key) {
    a == b || Less(a, b)
  }

  lemma AtMostTrans(a: Key, b: Key, c: Key)
    requires AtMost(a, b) && AtMost(b, c)
    ensures AtMost(a, c)
  {
  }

  lemma NextCursorBelow(tables: seq<Table>, limit: nat, j: nat)
    requires limit > 0 && 1 < j < |tables| && CursorAt(tables, limit, j).Some? && CursorAt(tables, limit, j - 1).Some?
    ensures AtMost(CursorAt(tables, limit, j).value, CursorAt(tables, limit, j - 1).value)
  {
    CursorIsLast(tables, limit, j);
    var page := PageAt(tables, limit, j - 1);
    PageBelow(Keys(tables[j-1]), CursorAt(tables, limit, j - 1), limit, |page| - 1);
  }

  /** The cursors of pages 1 to `j`. */
  ghost function CursorKeys(tables: seq<Table>, limit: nat, j: nat): (keys: seq<Key>)
    requires j < |tables| && Continues(tables, limit, j)
    ensures |keys| == j && forall k :: 0 <= k < j ==> CursorAt(tables, limit, k + 1) == Some(keys[k])
  {
    if j == 0 then [] else CursorKeys(tables, limit, j - 1) + [CursorAt(tables, limit, j).value]
  }

  lemma {:induction false} StepwiseFall(keys: seq<Key>, i: nat, j: nat)
    requires i <= j < |keys| && forall k :: 0 < k < |keys| ==> AtMost(keys[k], keys[k-1])
    ensures AtMost(keys[j], keys[i])
    decreases j
  {
    if i < j {
      StepwiseFall(keys, i, j - 1);
      AtMostTrans(keys[j], keys[j-1], keys[i]);
    }
  }

  /** Cursors only fall. */
  lemma CursorsFall(tables: seq<Table>, limit: nat, i: nat, j: nat)
    requires limit > 0 && 0 < i <= j < |tables| && Continues(tables, limit, j)
    ensures CursorAt(tables, limit, i).Some? && CursorAt(tables, limit, j).Some?
    ensures AtMost(CursorAt(tables, limit, j).value, CursorAt(tables, limit, i).value)
  {
    var keys := CursorKeys(tables, limit, j);
    forall k | 0 < k < j ensures AtMost(keys[k], keys[k-1]) {
      NextCursorBelow(tables, limit, k + 1);
    }
    StepwiseFall(keys, i - 1, j - 1);
  }

  /** The key of one row never falls. */
  lemma NeverBelow(t: Table, later: Table, x: Key, y: Key)
    requires OnlyRises(t, later) && x in Keys(t) && y in Keys(later)
    ensures x.id == y.id ==> !Less(y, x)
  {
  }

  /** A row of page `i` is not below the cursor of any later page. */
  lemma EarlierPageAbove(tables: seq<Table>, limit: nat, i: nat, j: nat, a: nat)
    requires limit > 0 && i < j < |tables| && Continues(tables, limit, j) && a < |PageAt(tables, limit, i)|
    ensures CursorAt(tables, limit, j).Some? && AtMost(CursorAt(tables, limit, j).value, PageAt(tables, limit, i)[a])
  {
    assert CursorAt(tables, limit, i + 1).Some?;
    assert CursorAt(tables, limit, i + 1) == NextCursor(PageAt(tables, limit, i), limit);
    PageAbove(Keys(tables[i]), CursorAt(tables, limit, i), limit, a);
    CursorsFall(tables, limit, i + 1, j);
    AtMostTrans(CursorAt(tables, limit, j).value, CursorAt(tables, limit, i + 1).value, PageAt(tables, limit, i)[a]);
  }

  /** However rows rise between fetches, no row is shown on two pages of a walk. */
  lemma ShownOnce(tables: seq<Table>, limit: nat, i: nat, j: nat, a: nat, b: nat)
    requires limit > 0 && i < j < |tables| && Rising(tables) && Continues(tables, limit, j)
    requires a < |PageAt(tables, limit, i)| && b < |PageAt(tables, limit, j)|
    ensures PageAt(tables, limit, i)[a].id != PageAt(tables, limit, j)[b].id
  {
    var x, y := PageAt(tables, limit, i)[a], PageAt(tables, limit, j)[b];
    PageBelow(Keys(tables[i]), CursorAt(tables, limit, i), limit, a);
    PageBelow(Keys(tables[j]), CursorAt(tables, limit, j), limit, b);
    EarlierPageAbove(tables, limit, i, j, a);
    NeverBelow(tables[i], tables[j], x, y);
  }
}
