/** query_audit as it executes: the WHERE clause grows argument by argument, then one page is read. */
module AuditReader {
  import opened Types
  import opened Paging

  /** The columns of an audit row that query_audit tests. */
  datatype LogRow = LogRow(
    key: Key,
    campaign: Option<CampaignId>,
    call: Option<CallId>,
    event: EventType,
    reason: string,
    phone: Option<string>)

  /** The optional arguments of query_audit; an empty text is no filter. */
  datatype Filter = Filter(
    campaign: Option<CampaignId>,
    call: Option<CallId>,
    events: Option<set<EventType>>,
    from: Option<Time>,
    until: Option<Time>,
    reason: string,
    phone: string)

  const MIN_DIGITS := 3

  /** What is left of a text without its non-digits. */
  function Digits(text: string): (r: string)
    ensures forall c :: multiset(r)[c] == if '0' <= c <= '9' then multiset(text)[c] else 0
  {
    if text == "" then ""
    else
      assert text == text[..|text|-1] + [text[|text|-1]];
      Digits(text[..|text|-1]) + if '0' <= text[|text|-1] <= '9' then [text[|text|-1]] else ""
  }

  /** The digits keep their order. */
  lemma {:induction false} DigitsConcat(a: string, b: string)
    ensures Digits(a + b) == Digits(a) + Digits(b)
    decreases |b|
  {
    if b == "" {
      assert a + b == a;
    } else {
      assert (a + b)[..|a + b|-1] == a + b[..|b|-1];
      DigitsConcat(a, b[..|b|-1]);
    }
  }

  predicate Contains(text: string, part: string) {
    exists i :: 0 <= i <= |text| && part <= text[i..]
  }

  /** `part` can stand anywhere in the text. */
  lemma ContainsExactlyWhen(text: string, part: string)
    ensures Contains(text, part) <==> exists before, after :: text == before + part + after
  {
    if Contains(text, part) {
      var i :| 0 <= i <= |text| && part <= text[i..];
      assert text == text[..i] + part + text[i + |part|..];
    }
    if before, after :| text == before + part + after {
      assert part <= text[|before|..];
    }
  }

  /** ILIKE with its pattern's special characters escaped: `fold` is the database's case folding. */
  predicate Mentions(text: string, part: string, fold: string -> string) {
    Contains(fold(text), fold(part))
  }

  predicate PassesColumns(f: Filter, row: LogRow) {
    && (f.campaign.Some? ==> row.campaign == f.campaign)
    && (f.call.Some? ==> row.call == f.call)
    && (f.events.Some? ==> row.event in f.events.value)
  }

  predicate PassesTimes(f: Filter, row: LogRow) {
    && (f.from.Some? ==> f.from.value <= row.key.ts)
    && (f.until.Some? ==> row.key.ts <= f.until.value)
  }

  predicate PassesTexts(f: Filter, row: LogRow, fold: string -> string) {
    && (f.reason != "" ==> Mentions(row.reason, f.reason, fold))
    && (|Digits(f.phone)| >= MIN_DIGITS ==> row.phone.Some? && Contains(row.phone.value, Digits(f.phone)))
  }

  predicate Passes(f: Filter, row: LogRow, fold: string -> string) {
    PassesColumns(f, row) && PassesTimes(f, row) && PassesTexts(f, row, fold)
  }

  function Passing(rows: set<LogRow>, f: Filter, fold: string -> string): set<Key> {
    set row | row in rows && Passes(f, row, fold) :: row.key
  }

  /** One conjunct of the WHERE clause. */
  datatype Clause =
    | CampaignIs(campaign: CampaignId)
    | CallIs(call: CallId)
    | EventIn(events: set<EventType>)
    | NotBefore(t: Time)
    | NotAfter(t: Time)
    | ReasonHas(part: string)
    | PhoneHas(digits: string)
    | KeyBelow(key: Key)

  predicate Satisfies(row: LogRow, clause: Clause, fold: string -> string) {
    match clause
    case CampaignIs(k) => row.campaign == Some(k)
    case CallIs(c) => row.call == Some(c)
    case EventIn(events) => row.event in events
    case NotBefore(t) => t <= row.key.ts
    case NotAfter(t) => row.key.ts <= t
    case ReasonHas(part) => Mentions(row.reason, part, fold)
    case PhoneHas(digits) => row.phone.Some? && Contains(row.phone.value, digits)
    case KeyBelow(key) => Less(row.key, key)
  }

  predicate SatisfiesAll(row: LogRow, clauses: seq<Clause>, fold: string -> string) {
    forall i :: 0 <= i < |clauses| ==> Satisfies(row, clauses[i], fold)
  }

  lemma SatisfiesOneMore(clauses: seq<Clause>, clause: Clause, fold: string -> string)
    ensures forall row :: SatisfiesAll(row, clauses + [clause], fold)
                     <==> SatisfiesAll(row, clauses, fold) && Satisfies(row, clause, fold)
  {
    forall row
      ensures SatisfiesAll(row, clauses + [clause], fold) <==> SatisfiesAll(row, clauses, fold) && Satisfies(row, clause, fold)
    {
      var longer := clauses + [clause];
      assert longer[|clauses|] == clause;
      assert forall i :: 0 <= i < |clauses| ==> longer[i] == clauses[i];
      if SatisfiesAll(row, longer, fold) {
        forall i | 0 <= i < |clauses| ensures Satisfies(row, clauses[i], fold) {
          assert Satisfies(row, longer[i], fold);
        }
      }
    }
  }

  method AddColumns(f: Filter, fold: string -> string) returns (clauses: seq<Clause>)
    ensures forall row :: SatisfiesAll(row, clauses, fold) <==> PassesColumns(f, row)
  {
    clauses := [];
    if f.campaign.Some? {
      SatisfiesOneMore(clauses, CampaignIs(f.campaign.value), fold);
      clauses := clauses + [CampaignIs(f.campaign.value)];
    }
    if f.call.Some? {
      SatisfiesOneMore(clauses, CallIs(f.call.value), fold);
      clauses := clauses + [CallIs(f.call.value)];
    }
    if f.events.Some? {
      SatisfiesOneMore(clauses, EventIn(f.events.value), fold);
      clauses := clauses + [EventIn(f.events.value)];
    }
  }

  method AddTimes(before: seq<Clause>, f: Filter, fold: string -> string) returns (clauses: seq<Clause>)
    ensures forall row :: SatisfiesAll(row, clauses, fold) <==> SatisfiesAll(row, before, fold) && PassesTimes(f, row)
  {
    clauses := before;
    if f.from.Some? {
      SatisfiesOneMore(clauses, NotBefore(f.from.value), fold);
      clauses := clauses + [NotBefore(f.from.value)];
    }
    if f.until.Some? {
      SatisfiesOneMore(clauses, NotAfter(f.until.value), fold);
      clauses := clauses + [NotAfter(f.until.value)];
    }
  }

  method AddTexts(before: seq<Clause>, f: Filter, fold: string -> string) returns (clauses: seq<Clause>)
    ensures forall row :: SatisfiesAll(row, clauses, fold) <==> SatisfiesAll(row, before, fold) && PassesTexts(f, row, fold)
  {
    clauses := before;
    if f.reason != "" {
      SatisfiesOneMore(clauses, ReasonHas(f.reason), fold);
      clauses := clauses + [ReasonHas(f.reason)];
    }
    var digits := Digits(f.phone);
    if |digits| >= MIN_DIGITS {
      SatisfiesOneMore(clauses, PhoneHas(digits), fold);
      clauses := clauses + [PhoneHas(digits)];
    }
  }

  /** What a row has to meet, argument by argument. */
  lemma PassesMeans(f: Filter, row: LogRow, fold: string -> string)
    ensures Passes(f, row, fold)
       <==> && (f.campaign != None ==> row.campaign == f.campaign)
            && (f.call != None ==> row.call == f.call)
            && (f.events != None ==> row.event in f.events.value)
            && (f.from != None ==> row.key.ts >= f.from.value)
            && (f.until != None ==> row.key.ts <= f.until.value)
            && (f.reason != "" ==> Contains(fold(row.reason), fold(f.reason)))
            && (|Digits(f.phone)| >= 3 ==> row.phone != None && Contains(row.phone.value, Digits(f.phone)))
  {
  }

  method BuildWhere(f: Filter, cursor: Option<Key>, fold: string -> string) returns (clauses: seq<Clause>)
    ensures forall row ::
              SatisfiesAll(row, clauses, fold) <==> Passes(f, row, fold) && (cursor.None? || Less(row.key, cursor.value))
    ensures forall row ::
              SatisfiesAll(row, clauses, fold) <==>
                && (f.campaign != None ==> row.campaign == f.campaign)
                && (f.call != None ==> row.call == f.call)
                && (f.events != None ==> row.event in f.events.value)
                && (f.from != None ==> row.key.ts >= f.from.value)
                && (f.until != None ==> row.key.ts <= f.until.value)
                && (f.reason != "" ==> Contains(fold(row.reason), fold(f.reason)))
                && (|Digits(f.phone)| >= 3 ==> row.phone != None && Contains(row.phone.value, Digits(f.phone)))
                && (cursor != None ==> row.key.ts < cursor.value.ts || (row.key.ts == cursor.value.ts && row.key.id < cursor.value.id))
  {
    clauses := AddColumns(f, fold);
    clauses := AddTimes(clauses, f, fold);
    clauses := AddTexts(clauses, f, fold);
    if cursor.Some? {
      SatisfiesOneMore(clauses, KeyBelow(cursor.value), fold);
      clauses := clauses + [KeyBelow(cursor.value)];
    }
    forall row { PassesMeans(f, row, fold); }
  }

  method Largest(s: set<Key>) returns (m: Key)
    requires s != {}
    ensures m == Max(s)
  {
    m :| m in s;
    var rest := s - {m};
    while rest != {}
      invariant rest < s && m in s && m !in rest
      invariant forall x :: x in s && x !in rest ==> x == m || Less(x, m)
    {
      var x :| x in rest;
      assert x == Key(x.ts, x.id) && m == Key(m.ts, m.id);
      if Less(m, x) {
        m := x;
      }
      rest := rest - {x};
    }
    assert IsMax(s, m);
    assert IsMax(s, Max(s));
  }

  lemma MoveOne(page: seq<Key>, rest: seq<Key>)
    requires rest != []
    ensures page + rest == (page + [rest[0]]) + rest[1..]
  {
  }

  lemma TakenIsPrefix(page: seq<Key>, rest: seq<Key>, all: seq<Key>)
    requires page + rest == all
    ensures all[..|page|] == page && |page| + |rest| == |all| && (rest == [] ==> page == all)
  {
  }

  /** ORDER BY ts DESC, id DESC LIMIT limit. */
  method TakeTop(s: set<Key>, limit: nat) returns (page: seq<Key>)
    ensures page == if limit <= |s| then Ranked(s)[..limit] else Ranked(s)
  {
    page := [];
    var rest := s;
    while |page| < limit && rest != {}
      invariant |page| <= limit && page + Ranked(rest) == Ranked(s)
    {
      var m := Largest(rest);
      RankedHead(rest);
      MoveOne(page, Ranked(rest));
      page := page + [m];
      rest := rest - {m};
    }
    TakenIsPrefix(page, Ranked(rest), Ranked(s));
  }

  function KeysOf(found: set<LogRow>): set<Key> {
    set row | row in found :: row.key
  }

  predicate HasKey(found: set<LogRow>, key: Key) {
    exists row :: row in found && row.key == key
  }

  /** The rows with these keys, in their order. */
  method RowsWith(found: set<LogRow>, keys: seq<Key>) returns (page: seq<LogRow>)
    requires forall i :: 0 <= i < |keys| ==> HasKey(found, keys[i])
    ensures |page| == |keys| && forall i :: 0 <= i < |keys| ==> page[i] in found && page[i].key == keys[i]
  {
    page := [];
    for i := 0 to |keys|
      invariant |page| == i && forall j :: 0 <= j < i ==> page[j] in found && page[j].key == keys[j]
    {
      assert HasKey(found, keys[i]);
      var row :| row in found && row.key == keys[i];
      page := page + [row];
    }
  }

  /** ORDER BY ts DESC, id DESC LIMIT limit, with all columns. */
  method TakeRows(found: set<LogRow>, limit: nat) returns (page: seq<LogRow>, ghost keys: seq<Key>)
    ensures var all := Ranked(KeysOf(found)); keys == if limit <= |all| then all[..limit] else all
    ensures |page| == |keys| && forall i :: 0 <= i < |keys| ==> page[i] in found && page[i].key == keys[i]
  {
    var top := TakeTop(KeysOf(found), limit);
    forall i | 0 <= i < |top| ensures HasKey(found, top[i]) {
      assert top[i] in Ranked(KeysOf(found));
    }
    page := RowsWith(found, top);
    keys := top;
  }

  lemma FoundIsBelow(rows: set<LogRow>, found: set<LogRow>, f: Filter, cursor: Option<Key>, fold: string -> string)
    requires forall row :: row in found <==> row in rows && Passes(f, row, fold) && (cursor.None? || Less(row.key, cursor.value))
    ensures KeysOf(found) == Below(Passing(rows, f, fold), cursor)
  {
    forall key | key in Below(Passing(rows, f, fold), cursor) ensures key in KeysOf(found) {
      var row :| row in rows && Passes(f, row, fold) && row.key == key;
      assert row in found;
    }
  }

  /** Of two rows, the one with the later time, or with the greater id at the same time. */
  predicate Newer(a: Key, b: Key) {
    a.ts > b.ts || (a.ts == b.ts && a.id > b.id)
  }

  predicate IsBelow(row: LogRow, cursor: Option<Key>) {
    cursor != None ==> Newer(cursor.value, row.key)
  }

  /** The row passes the filters and lies below the cursor. */
  predicate Wanted(row: LogRow, f: Filter, cursor: Option<Key>, fold: string -> string) {
    Passes(f, row, fold) && IsBelow(row, cursor)
  }

  predicate Shows(page: seq<LogRow>, key: Key) {
    exists i :: 0 <= i < |page| && page[i].key == key
  }

  /** `page` holds wanted rows only, newest first, and misses one only if it is full and all it holds is newer. */
  predicate NewestWanted(rows: set<LogRow>, f: Filter, cursor: Option<Key>, limit: nat, fold: string -> string, page: seq<LogRow>)
    requires limit > 0
  {
    && |page| <= limit
    && (forall i, j :: 0 <= i < j < |page| ==> Newer(page[i].key, page[j].key))
    && (forall i :: 0 <= i < |page| ==> page[i] in rows && Wanted(page[i], f, cursor, fold))
    && (forall row :: row in rows && Wanted(row, f, cursor, fold) ==>
          Shows(page, row.key) || (|page| == limit && Newer(page[limit-1].key, row.key)))
  }

  predicate Carries(rows: set<LogRow>, f: Filter, fold: string -> string, page: seq<LogRow>, keys: seq<Key>) {
    |page| == |keys| && forall i :: 0 <= i < |keys| ==> page[i] in rows && Passes(f, page[i], fold) && page[i].key == keys[i]
  }

  lemma WantedIsBelow(rows: set<LogRow>, f: Filter, cursor: Option<Key>, fold: string -> string, row: LogRow)
    requires row in rows && Passes(f, row, fold)
    ensures IsBelow(row, cursor) <==> row.key in Below(Passing(rows, f, fold), cursor)
  {
  }

  lemma ShownOrNewer(rows: set<LogRow>, f: Filter, cursor: Option<Key>, limit: nat, fold: string -> string,
                     page: seq<LogRow>, keys: seq<Key>, row: LogRow)
    requires limit > 0 && keys == Page(Passing(rows, f, fold), cursor, limit) && Carries(rows, f, fold, page, keys)
    requires row in rows && Wanted(row, f, cursor, fold)
    ensures Shows(page, row.key) || (|page| == limit && Newer(page[limit-1].key, row.key))
  {
    PageMeans(Passing(rows, f, fold), cursor, limit);
    WantedIsBelow(rows, f, cursor, fold, row);
    if row.key in keys {
      var i :| 0 <= i < |keys| && keys[i] == row.key;
      assert page[i].key == row.key;
    }
  }

  lemma FetchedMeans(rows: set<LogRow>, f: Filter, cursor: Option<Key>, limit: nat, fold: string -> string,
                     page: seq<LogRow>, keys: seq<Key>)
    requires limit > 0 && keys == Page(Passing(rows, f, fold), cursor, limit) && Carries(rows, f, fold, page, keys)
    ensures NewestWanted(rows, f, cursor, limit, fold, page)
  {
    PageMeans(Passing(rows, f, fold), cursor, limit);
    forall i | 0 <= i < |page| ensures Wanted(page[i], f, cursor, fold) {
      assert keys[i] in keys;
      WantedIsBelow(rows, f, cursor, fold, page[i]);
    }
    forall row | row in rows && Wanted(row, f, cursor, fold)
      ensures Shows(page, row.key) || (|page| == limit && Newer(page[limit-1].key, row.key))
    {
      ShownOrNewer(rows, f, cursor, limit, fold, page, keys, row);
    }
  }

  datatype Fetched = Refused | Fetched(page: seq<LogRow>, next: Option<Key>)

  /** The statement with its WHERE clause. */
  method FetchPage(rows: set<LogRow>, f: Filter, cursor: Option<Key>, limit: nat, fold: string -> string)
    returns (page: seq<LogRow>, ghost keys: seq<Key>)
    requires limit > 0
    ensures keys == Page(Passing(rows, f, fold), cursor, limit) && Carries(rows, f, fold, page, keys)
  {
    var clauses := BuildWhere(f, cursor, fold);
    var found := set row | row in rows && SatisfiesAll(row, clauses, fold);
    FoundIsBelow(rows, found, f, cursor, fold);
    page, keys := TakeRows(found, limit);
  }

  /** The rows that pass the filters and lie below the cursor, newest first, and where the next page starts. */
  method QueryLog(rows: set<LogRow>, f: Filter, cursor: Option<Key>, limit: int, fold: string -> string)
    returns (answer: Fetched)
    ensures match QueryAudit(Passing(rows, f, fold), cursor, limit)
            case BadLimit => answer.Refused?
            case Rows(keys, next) =>
              && answer.Fetched? && answer.next == next && |answer.page| == |keys|
              && forall i :: 0 <= i < |keys| ==>
                   answer.page[i] in rows && Passes(f, answer.page[i], fold) && answer.page[i].key == keys[i]
    ensures answer.Refused? <==> limit <= 0 || limit > 500
    ensures answer.Fetched? ==>
              && NewestWanted(rows, f, cursor, limit, fold, answer.page)
              && answer.next == (if |answer.page| == limit then Some(answer.page[limit-1].key) else None)
  {
    if limit <= 0 || limit > MAX_LIMIT {
      return Refused;
    }
    var page;
    ghost var keys;
    page, keys := FetchPage(rows, f, cursor, limit, fold);
    var next := None;
    if |page| == limit && page != [] {
      next := Some(page[|page|-1].key);
    }
    FetchedMeans(rows, f, cursor, limit, fold, page, keys);
    answer := Fetched(page, next);
  }
}
