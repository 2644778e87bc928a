/** `getEventsByFilter`: the filter conditions built clause by clause, the
    sort-token mapping, the native sort and pagination over the events
    collection, and the in-memory re-sort of a `nearestDate` page. */
module EventQuery {
  import opened Common
  import opened EventModel

  // ----- the filter ----------------------------------------------------------

  /** The filter part of the query string, parsed. For `keyword`, `latLng`,
      `from` and `to`, which the service tests for truthiness, `None` is a
      parameter that is absent or falsy. For `kmDistance`, whose default of 5
      applies only when the key is absent, `None` is the absent key and an
      empty value parses to `Some(0.0)`, the number `"" / 6378.1` divides. */
  datatype Filter = Filter(
    keyword: Option<string>,
    latLng: Option<string>,
    fromDate: Option<Time>,
    toDate: Option<Time>,
    kmDistance: Option<real>)

  /** One entry of `filterConditions`. */
  datatype Clause =
    | KeywordClause(keyword: string)           // `$regex` on name or location.name, `i` option
    | AfterClause(fromDate: Time)              // `time: { $gt: fromDate }`
    | BeforeClause(toDate: Time)               // `time: { $lt: toDate }`
    | NearClause(latLng: string, radius: real) // `$geoWithin: { $centerSphere: [.., radius] }`

  /** The criteria handed to the store: `{ $and: conditions }`, or `{}`. */
  datatype Criteria = MatchAll | And(conditions: seq<Clause>)

  /** The spherical-cap test of `$centerSphere` on a centre given as the
      `latLng` string, a radius in radians and an event's location. */
  type Within = (string, real, Option<Location>) -> bool

  const EarthRadiusKm: real := 6378.1
  const DefaultKmDistance: real := 5.0

  /** JavaScript truthiness of an optional string parameter. */
  predicate Truthy(s: Option<string>) {
    s.Some? && s.value != ""
  }

  /** ASCII case folding, as the `i` regex option applies it to ASCII letters. */
  function Lower(c: char): char {
    if 'A' <= c <= 'Z' then (c as int + 32) as char else c
  }

  predicate MatchesAt(text: string, pattern: string, i: nat)
    requires i + |pattern| <= |text|
  {
    forall k :: 0 <= k < |pattern| ==> Lower(text[i + k]) == Lower(pattern[k])
  }

  /** `pattern` occurs in `text`, ignoring ASCII case. */
  function ContainsCI(text: string, pattern: string): (r: bool)
    ensures r <==> exists i: nat :: i + |pattern| <= |text| && MatchesAt(text, pattern, i)
    decreases |text|
  {
    if |pattern| > |text| then false
    else if MatchesAt(text, pattern, 0) then true
    else
      var rest := ContainsCI(text[1..], pattern);
      ShiftMatches(text, pattern);
      rest
  }

  lemma ShiftMatches(text: string, pattern: string)
    requires |pattern| <= |text| && !MatchesAt(text, pattern, 0)
    ensures (exists i: nat :: i + |pattern| <= |text[1..]| && MatchesAt(text[1..], pattern, i)) <==>
            (exists i: nat :: i + |pattern| <= |text| && MatchesAt(text, pattern, i))
  {
    forall i: nat | i + |pattern| <= |text[1..]|
      ensures MatchesAt(text[1..], pattern, i) <==> MatchesAt(text, pattern, i + 1)
    {
    }
    if i: nat :| i + |pattern| <= |text| && MatchesAt(text, pattern, i) {
      assert i != 0;
      assert MatchesAt(text[1..], pattern, i - 1);
    }
  }

  function LocationName(e: Event): Option<string> {
    if e.location.Some? then e.location.value.name else None
  }

  /** Whether one clause holds of an event. A missing field never matches. */
  function Holds(c: Clause, e: Event, within: Within): (r: bool)
    ensures (c.AfterClause? || c.BeforeClause?) && e.time.None? ==> !r
    ensures c.KeywordClause? && e.name.None? && LocationName(e).None? ==> !r
    ensures c.KeywordClause? && c.keyword == "" ==> (r <==> e.name.Some? || LocationName(e).Some?)
  {
    match c
    case KeywordClause(k) =>
      (e.name.Some? && ContainsCI(e.name.value, k)) ||
      (LocationName(e).Some? && ContainsCI(LocationName(e).value, k))
    case AfterClause(t) => e.time.Some? && e.time.value > t
    case BeforeClause(t) => e.time.Some? && e.time.value < t
    case NearClause(latLng, radius) => within(latLng, radius, e.location)
  }

  predicate Matches(criteria: Criteria, e: Event, within: Within) {
    match criteria
    case MatchAll => true
    case And(conds) => forall i :: 0 <= i < |conds| ==> Holds(conds[i], e, within)
  }

  /** The clauses, in the order they are pushed. */
  function Clauses(f: Filter): (r: seq<Clause>)
    ensures |r| <= 4
    ensures |r| == 0 <==> !Truthy(f.keyword) && f.fromDate.None? && f.toDate.None? && !Truthy(f.latLng)
    ensures Truthy(f.keyword) ==> r[0] == KeywordClause(f.keyword.value)
  {
    (if Truthy(f.keyword) then [KeywordClause(f.keyword.value)] else []) +
    (if f.fromDate.Some? then [AfterClause(f.fromDate.value)] else []) +
    (if f.toDate.Some? then [BeforeClause(f.toDate.value)] else []) +
    (if Truthy(f.latLng) then [NearClause(f.latLng.value, f.kmDistance.GetOr(DefaultKmDistance) / EarthRadiusKm)] else [])
  }

  /** The building of `filterConditions`, one `push` per present parameter. */
  method FilterConditions(f: Filter) returns (conditions: seq<Clause>)
    ensures conditions == Clauses(f)
  {
    conditions := [];
    if Truthy(f.keyword) {
      conditions := conditions + [KeywordClause(f.keyword.value)];
    }
    if f.fromDate.Some? {
      conditions := conditions + [AfterClause(f.fromDate.value)];
    }
    if f.toDate.Some? {
      conditions := conditions + [BeforeClause(f.toDate.value)];
    }
    if Truthy(f.latLng) {
      var km := f.kmDistance.GetOr(DefaultKmDistance);
      conditions := conditions + [NearClause(f.latLng.value, km / EarthRadiusKm)];
    }
  }

  /** `filterConditions.length > 0 ? { $and: filterConditions } : {}`. */
  function CriteriaOf(conditions: seq<Clause>): (c: Criteria)
    ensures c.MatchAll? <==> |conditions| == 0
    ensures forall e, within :: Matches(c, e, within) <==>
              forall i :: 0 <= i < |conditions| ==> Holds(conditions[i], e, within)
  {
    if |conditions| > 0 then And(conditions) else MatchAll
  }

  /** What the filter means, stated on the parameters themselves: every
      present parameter constrains the event, and nothing else does. */
  predicate Wanted(f: Filter, e: Event, within: Within) {
    && (Truthy(f.keyword) ==>
          (e.name.Some? && ContainsCI(e.name.value, f.keyword.value)) ||
          (LocationName(e).Some? && ContainsCI(LocationName(e).value, f.keyword.value)))
    && (f.fromDate.Some? ==> e.time.Some? && e.time.value > f.fromDate.value)
    && (f.toDate.Some? ==> e.time.Some? && e.time.value < f.toDate.value)
    && (Truthy(f.latLng) ==>
          within(f.latLng.value, f.kmDistance.GetOr(DefaultKmDistance) / EarthRadiusKm, e.location))
  }

  /** The criteria select exactly the wanted events. */
  lemma {:induction false} CriteriaMeanWanted(f: Filter, e: Event, within: Within)
    ensures Matches(CriteriaOf(Clauses(f)), e, within) <==> Wanted(f, e, within)
  {
    var k := if Truthy(f.keyword) then [KeywordClause(f.keyword.value)] else [];
    var a := if f.fromDate.Some? then [AfterClause(f.fromDate.value)] else [];
    var b := if f.toDate.Some? then [BeforeClause(f.toDate.value)] else [];
    var n := if Truthy(f.latLng) then [NearClause(f.latLng.value, f.kmDistance.GetOr(DefaultKmDistance) / EarthRadiusKm)] else [];
    var cs := Clauses(f);
    assert cs == k + a + b + n;
    forall c | c in cs ensures c in k || c in a || c in b || c in n {
    }
    if Wanted(f, e, within) {
      forall i | 0 <= i < |cs| ensures Holds(cs[i], e, within) {
        assert cs[i] in cs;
      }
    }
    if Matches(CriteriaOf(cs), e, within) {
      if Truthy(f.keyword) {
        assert cs[0] == k[0];
        assert Holds(cs[0], e, within);
      }
      if f.fromDate.Some? {
        assert cs[|k|] == a[0];
        assert Holds(cs[|k|], e, within);
      }
      if f.toDate.Some? {
        assert cs[|k| + |a|] == b[0];
        assert Holds(cs[|k| + |a|], e, within);
      }
      if Truthy(f.latLng) {
        assert cs[|k| + |a| + |b|] == n[0];
        assert Holds(cs[|k| + |a| + |b|], e, within);
      }
    }
  }

  /** A filter without any parameter selects every event. */
  lemma EmptyFilterMatchesAll(f: Filter, e: Event, within: Within)
    requires !Truthy(f.keyword) && f.fromDate.None? && f.toDate.None? && !Truthy(f.latLng)
    ensures CriteriaOf(Clauses(f)) == MatchAll
    ensures Matches(CriteriaOf(Clauses(f)), e, within)
  {
  }

  /** `Event.find(criteria)`: the matching events, in the collection's order. */
  function Find(collection: seq<Event>, criteria: Criteria, within: Within): (r: seq<Event>)
    ensures |r| <= |collection|
    ensures forall e :: e in r <==> e in collection && Matches(criteria, e, within)
  {
    if |collection| == 0 then []
    else
      var init := Find(collection[..|collection| - 1], criteria, within);
      var last := collection[|collection| - 1];
      assert collection == collection[..|collection| - 1] + [last];
      if Matches(criteria, last, within) then init + [last] else init
  }

  /** A matching event is selected as often as the collection holds it. */
  lemma {:induction false} FindCounts(collection: seq<Event>, criteria: Criteria, within: Within, e: Event)
    ensures multiset(Find(collection, criteria, within))[e] ==
              if Matches(criteria, e, within) then multiset(collection)[e] else 0
  {
    if |collection| > 0 {
      var init := collection[..|collection| - 1];
      FindCounts(init, criteria, within, e);
      assert collection == init + [collection[|collection| - 1]];
    }
  }

  // ----- the sort order ------------------------------------------------------

  datatype Order = NameAsc | NameDesc | TimeAsc | TimeDesc

  /** The `switch (sortBy)`. The second `case "timeAscending"` is never
      reached; `nearestDate` has no `break`, so its empty order is
      overwritten by the default's; `timeDescending` is served by the default. */
  function SortOrderFor(sortBy: Option<string>): (o: Order)
    ensures o == NameAsc <==> sortBy == Some("nameAscending")
    ensures o == NameDesc <==> sortBy == Some("nameDescending")
    ensures o == TimeAsc <==> sortBy == Some("timeAscending")
    ensures o == TimeDesc <==>
              sortBy !in {Some("nameAscending"), Some("nameDescending"), Some("timeAscending")}
  {
    if sortBy == Some("nameAscending") then NameAsc
    else if sortBy == Some("nameDescending") then NameDesc
    else if sortBy == Some("timeAscending") then TimeAsc
    else if sortBy == Some("timeAscending") then TimeDesc
    else TimeDesc
  }

  /** Every token the route accepts besides the three explicit ones, and an
      absent one, gives time descending. */
  lemma OtherTokensSortByTimeDescending()
    ensures SortOrderFor(Some("timeDescending")) == TimeDesc
    ensures SortOrderFor(Some("nearestDate")) == TimeDesc
    ensures SortOrderFor(Some("")) == TimeDesc
    ensures SortOrderFor(None) == TimeDesc
  {
  }

  /** Binary string order: character by character, a prefix first. A `char`
      is a Unicode scalar value, so this is code-point order, which is the
      order of the UTF-8 bytes the store compares. */
  predicate StrLe(a: string, b: string)
    decreases |a|
  {
    |a| == 0 || (|b| > 0 && (a[0] < b[0] || (a[0] == b[0] && StrLe(a[1..], b[1..]))))
  }

  lemma {:induction false} StrLeTotal(a: string, b: string)
    ensures StrLe(a, b) || StrLe(b, a)
    decreases |a|
  {
    if |a| > 0 && |b| > 0 && a[0] == b[0] {
      StrLeTotal(a[1..], b[1..]);
    }
  }

  lemma {:induction false} StrLeTransitive(a: string, b: string, c: string)
    requires StrLe(a, b) && StrLe(b, c)
    ensures StrLe(a, c)
    decreases |a|
  {
    if |a| > 0 && a[0] == b[0] && b[0] == c[0] {
      StrLeTransitive(a[1..], b[1..], c[1..]);
    }
  }

  /** The store's ascending order on an optional field: a missing value
      comes first (and so last in the descending orders). */
  predicate NameLe(a: Option<string>, b: Option<string>) {
    a.None? || (b.Some? && StrLe(a.value, b.value))
  }

  predicate TimeLe(a: Option<Time>, b: Option<Time>) {
    a.None? || (b.Some? && a.value <= b.value)
  }

  /** `a` may come before `b` in order `o`. */
  predicate InOrder(o: Order, a: Event, b: Event) {
    match o
    case NameAsc => NameLe(a.name, b.name)
    case NameDesc => NameLe(b.name, a.name)
    case TimeAsc => TimeLe(a.time, b.time)
    case TimeDesc => TimeLe(b.time, a.time)
  }

  lemma InOrderTotal(o: Order, a: Event, b: Event)
    ensures InOrder(o, a, b) || InOrder(o, b, a)
  {
    if a.name.Some? && b.name.Some? {
      StrLeTotal(a.name.value, b.name.value);
    }
  }

  lemma InOrderTransitive(o: Order, a: Event, b: Event, c: Event)
    requires InOrder(o, a, b) && InOrder(o, b, c)
    ensures InOrder(o, a, c)
  {
    match o
    case NameAsc =>
      if a.name.Some? {
        StrLeTransitive(a.name.value, b.name.value, c.name.value);
      }
    case NameDesc =>
      if c.name.Some? {
        StrLeTransitive(c.name.value, b.name.value, a.name.value);
      }
    case TimeAsc =>
    case TimeDesc =>
  }

  predicate SortedIn(o: Order, s: seq<Event>) {
    forall i, j :: 0 <= i < j < |s| ==> InOrder(o, s[i], s[j])
  }

  /** `x` goes after every element that is not strictly behind it, so equal
      keys keep their order of arrival. */
  function Insert(o: Order, x: Event, s: seq<Event>): (r: seq<Event>)
    ensures |r| == |s| + 1
  {
    if |s| == 0 then [x]
    else if !InOrder(o, s[0], x) then [x] + s
    else [s[0]] + Insert(o, x, s[1..])
  }

  /** `.sort(sortOrder)`: the store's sort, stable over the collection's order. */
  function SortEvents(s: seq<Event>, o: Order): (r: seq<Event>)
    ensures |r| == |s|
  {
    if |s| == 0 then [] else Insert(o, s[|s| - 1], SortEvents(s[..|s| - 1], o))
  }

  lemma {:induction false} InsertPermutes(o: Order, x: Event, s: seq<Event>)
    ensures multiset(Insert(o, x, s)) == multiset(s) + multiset{x}
  {
    if |s| > 0 && InOrder(o, s[0], x) {
      InsertPermutes(o, x, s[1..]);
      assert s == [s[0]] + s[1..];
    }
  }

  lemma {:induction false} InsertSorted(o: Order, x: Event, s: seq<Event>)
    requires SortedIn(o, s)
    ensures SortedIn(o, Insert(o, x, s))
  {
    if |s| == 0 {
    } else if !InOrder(o, s[0], x) {
      InOrderTotal(o, s[0], x);
      forall j | 0 < j < |s| + 1 ensures InOrder(o, x, ([x] + s)[j]) {
        if j > 1 {
          InOrderTransitive(o, x, s[0], s[j - 1]);
        }
      }
    } else {
      var rest := Insert(o, x, s[1..]);
      InsertSorted(o, x, s[1..]);
      InsertPermutes(o, x, s[1..]);
      forall j | 0 <= j < |rest| ensures InOrder(o, s[0], rest[j]) {
        assert rest[j] in multiset(rest);
        if rest[j] != x {
          assert rest[j] in multiset(s[1..]);
          var k :| 0 <= k < |s[1..]| && s[1..][k] == rest[j];
          assert InOrder(o, s[0], s[k + 1]);
        }
      }
    }
  }

  /** The sort returns the selected events, each exactly as often as before. */
  lemma {:induction false} SortEventsPermutes(s: seq<Event>, o: Order)
    ensures multiset(SortEvents(s, o)) == multiset(s)
  {
    if |s| > 0 {
      SortEventsPermutes(s[..|s| - 1], o);
      InsertPermutes(o, s[|s| - 1], SortEvents(s[..|s| - 1], o));
      assert s == s[..|s| - 1] + [s[|s| - 1]];
    }
  }

  /** The sort returns them in the requested order. */
  lemma {:induction false} SortEventsSorted(s: seq<Event>, o: Order)
    ensures SortedIn(o, SortEvents(s, o))
  {
    if |s| > 0 {
      SortEventsSorted(s[..|s| - 1], o);
      InsertSorted(o, s[|s| - 1], SortEvents(s[..|s| - 1], o));
    }
  }

  // ----- pagination ----------------------------------------------------------

  /** `Math.ceil(count / limit)` on whole numbers. */
  function CeilDiv(n: nat, d: nat): (q: nat)
    requires d > 0
    ensures q * d >= n
    ensures q == 0 || (q - 1) * d < n
  {
    (n + d - 1) / d
  }

  /** `.skip(offset).limit(limit)`. */
  function Window(s: seq<Event>, offset: nat, limit: nat): (r: seq<Event>)
    ensures |r| <= limit
    ensures offset >= |s| ==> r == []
    ensures forall i :: 0 <= i < |r| ==> offset + i < |s| && r[i] == s[offset + i]
    ensures offset + limit <= |s| ==> |r| == limit
    // a last page that is only partly filled holds every remaining event
    ensures offset < |s| < offset + limit ==> |r| == |s| - offset
  {
    if offset >= |s| then []
    else if offset + limit <= |s| then s[offset..offset + limit]
    else s[offset..]
  }

  lemma MulMonotone(a: nat, b: nat, c: nat)
    requires b <= c
    ensures a * b <= a * c
  {
  }

  /** Pages of `limit` cover the sorted selection: the `i`-th event is on page
      `i / limit + 1`, at position `i % limit`. */
  lemma {:induction false} EventIsOnItsPage(s: seq<Event>, limit: nat, i: nat)
    requires limit > 0 && i < |s|
    ensures var w := Window(s, limit * (i / limit), limit);
            i % limit < |w| && w[i % limit] == s[i]
  {
    var q, r := i / limit, i % limit;
    assert i == limit * q + r;
    var w := Window(s, limit * q, limit);
    assert |w| == limit || |w| == |s| - limit * q;
  }

  /** Every page past the last is empty. */
  lemma {:induction false} PagesPastTheLastAreEmpty(s: seq<Event>, limit: nat, page: nat)
    requires limit > 0 && page > CeilDiv(|s|, limit)
    ensures Window(s, limit * (page - 1), limit) == []
  {
    var q := CeilDiv(|s|, limit);
    MulMonotone(limit, q, page - 1);
    assert q * limit >= |s|;
    assert limit * q == q * limit;
  }

  // ----- nearestDate ---------------------------------------------------------

  /** Ascending by `timeUntilToday(time)`. */
  predicate NearestFirst(s: seq<Event>, untilToday: Option<Time> -> int) {
    forall i, j :: 0 <= i < j < |s| ==> untilToday(s[i].time) <= untilToday(s[j].time)
  }

  /** `events.sort((a, b) => timeUntilToday(a.time) - timeUntilToday(b.time))`
      on the fetched page, in place. */
  method SortByNearestDate(a: array<Event>, untilToday: Option<Time> -> int)
    modifies a
    ensures NearestFirst(a[..], untilToday)
    ensures multiset(a[..]) == multiset(old(a[..]))
  {
    var i := 0;
    while i < a.Length
      invariant 0 <= i <= a.Length
      invariant NearestFirst(a[..i], untilToday)
      invariant multiset(a[..]) == multiset(old(a[..]))
    {
      InsertNearest(a, i, untilToday);
      i := i + 1;
    }
  }

  /** One pass of the insertion: `a[i]` moves left past every event strictly
      farther away, so `a[..i + 1]` is sorted. */
  method InsertNearest(a: array<Event>, i: nat, untilToday: Option<Time> -> int)
    requires i < a.Length && NearestFirst(a[..i], untilToday)
    modifies a
    ensures NearestFirst(a[..i + 1], untilToday)
    ensures multiset(a[..]) == multiset(old(a[..]))
  {
    var j := i;
    while j > 0 && untilToday(a[j - 1].time) > untilToday(a[j].time)
      invariant 0 <= j <= i
      invariant multiset(a[..]) == multiset(old(a[..]))
      invariant forall p, q :: 0 <= p < q <= i && p != j && q != j ==>
                  untilToday(a[p].time) <= untilToday(a[q].time)
      invariant forall q :: j < q <= i ==> untilToday(a[j].time) < untilToday(a[q].time)
    {
      Swap(a, j - 1, j);
      j := j - 1;
    }
  }

  method Swap(a: array<Event>, i: nat, j: nat)
    requires i < j < a.Length
    modifies a
    ensures a[..] == old(a[..])[i := old(a[j])][j := old(a[i])]
    ensures multiset(a[..]) == multiset(old(a[..]))
  {
    a[i], a[j] := a[j], a[i];
  }

  /** The fetched page copied into an array, sorted there, and read back. */
  method ResortPage(events: seq<Event>, untilToday: Option<Time> -> int) returns (r: seq<Event>)
    ensures |r| == |events|
    ensures multiset(r) == multiset(events)
    ensures NearestFirst(r, untilToday)
  {
    var a := new Event[|events|](i requires 0 <= i < |events| => events[i]);
    assert a[..] == events;
    SortByNearestDate(a, untilToday);
    r := a[..];
  }

  // ----- getEventsByFilter ---------------------------------------------------

  datatype Options = Options(page: int, limit: int, sortBy: Option<string>)

  datatype Page = Page(events: seq<Event>, count: nat, totalPages: nat)

  /** The events the query selects, in the order the store returns them. */
  function Selected(collection: seq<Event>, f: Filter, within: Within): seq<Event> {
    Find(collection, CriteriaOf(Clauses(f)), within)
  }

  /** `getEventsByFilter`: `count` is the size of the whole selection, the
      events are the `[offset, offset + limit)` slice of the sorted selection,
      and a `nearestDate` page is that slice re-sorted nearest first. */
  method GetEventsByFilter(collection: seq<Event>, f: Filter, options: Options,
                           within: Within, untilToday: Option<Time> -> int) returns (page: Page)
    requires options.page >= 1 && options.limit >= 1
    ensures page.count == |Selected(collection, f, within)|
    ensures page.totalPages == CeilDiv(page.count, options.limit)
    ensures |page.events| <= options.limit
    ensures options.sortBy != Some("nearestDate") ==>
              page.events == Window(SortEvents(Selected(collection, f, within), SortOrderFor(options.sortBy)),
                                    options.limit * (options.page - 1), options.limit)
    ensures options.sortBy == Some("nearestDate") ==>
              && multiset(page.events) ==
                   multiset(Window(SortEvents(Selected(collection, f, within), TimeDesc),
                                   options.limit * (options.page - 1), options.limit))
              && NearestFirst(page.events, untilToday)
  {
    var conditions := FilterConditions(f);
    var criteria := CriteriaOf(conditions);
    var order := SortOrderFor(options.sortBy);
    var selected := Find(collection, criteria, within);
    var count := |selected|;
    var totalPages := CeilDiv(count, options.limit);
    var offset := options.limit * (options.page - 1);
    var events := Window(SortEvents(selected, order), offset, options.limit);
    if options.sortBy == Some("nearestDate") {
      events := ResortPage(events, untilToday);
    }
    page := Page(events, count, totalPages);
  }

  /** Without clauses the store returns the whole collection, in its order. */
  lemma {:induction false} MatchAllFindsEverything(collection: seq<Event>, within: Within)
    ensures Find(collection, MatchAll, within) == collection
  {
    if |collection| > 0 {
      MatchAllFindsEverything(collection[..|collection| - 1], within);
      assert collection == collection[..|collection| - 1] + [collection[|collection| - 1]];
    }
  }

  /** A query without filter parameters selects the whole collection. */
  lemma EmptyFilterSelectsAll(collection: seq<Event>, within: Within)
    ensures Selected(collection, Filter(None, None, None, None, None), within) == collection
  {
    assert CriteriaOf(Clauses(Filter(None, None, None, None, None))) == MatchAll;
    MatchAllFindsEverything(collection, within);
  }

  lemma SortThreeByTime(e1: Event, e2: Event, e3: Event)
    requires e1.time == Some(1) && e2.time == Some(2) && e3.time == Some(3)
    ensures SortEvents([e2, e3, e1], TimeAsc) == [e1, e2, e3]
  {
    assert [e2, e3, e1][..2] == [e2, e3] && [e2, e3][..1] == [e2] && [e2][..0] == [];
    assert SortEvents([e2], TimeAsc) == [e2];
    assert [e2][1..] == [];
    assert Insert(TimeAsc, e3, [e2]) == [e2, e3];
    assert SortEvents([e2, e3], TimeAsc) == [e2, e3];
    assert Insert(TimeAsc, e1, [e2, e3]) == [e1, e2, e3];
  }

  /** Three events at increasing times, stored out of order, sorted
      `timeAscending`, two per page: 3 events in 2 pages, the two earliest on
      page 1 and the latest alone on page 2. */
  lemma TwoPagesOfThree(e1: Event, e2: Event, e3: Event, within: Within)
    requires e1.time == Some(1) && e2.time == Some(2) && e3.time == Some(3)
    ensures var all := Selected([e2, e3, e1], Filter(None, None, None, None, None), within);
            var sorted := SortEvents(all, SortOrderFor(Some("timeAscending")));
            && |all| == 3
            && CeilDiv(|all|, 2) == 2
            && Window(sorted, 2 * (1 - 1), 2) == [e1, e2]
            && Window(sorted, 2 * (2 - 1), 2) == [e3]
  {
    EmptyFilterSelectsAll([e2, e3, e1], within);
    SortThreeByTime(e1, e2, e3);
  }
}
