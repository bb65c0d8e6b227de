/**
 * The countries page: loads a list of countries from a REST API, keeps it
 * sorted by name in a cache, and renders it (or the part whose name
 * contains a filter text) as a numbered table.
 */
module Countries {
  import opened JsRuntime
  import opened JsStrings

  datatype NameField = NameField(common: Option<string>)
  datatype MapsField = MapsField(googleMaps: Option<string>)

  /**
   * One element of the payload: null or undefined, or an object whose
   * `name`, `name.common`, `maps` and `maps.googleMaps` may each be missing
   * (`None` stands for null and undefined alike).
   */
  datatype Country = Nullish | Record(name: Option<NameField>, maps: Option<MapsField>)

  const UnknownName: string := "Unknown"

  /** `item?.name?.common ?? "Unknown"`: only a missing name is replaced; an empty one stays. */
  function SafeCountryName(c: Country): (r: string)
    ensures c.Record? && c.name.Some? && c.name.value.common.Some? ==> r == c.name.value.common.value
    ensures !(c.Record? && c.name.Some? && c.name.value.common.Some?) ==> r == UnknownName
  {
    match c
    case Record(Some(NameField(Some(n))), _) => n
    case _ => UnknownName
  }

  /** `item?.maps?.googleMaps ?? ""`. */
  function SafeMapUrl(c: Country): (r: string)
    ensures c.Record? && c.maps.Some? && c.maps.value.googleMaps.Some? ==> r == c.maps.value.googleMaps.value
    ensures !(c.Record? && c.maps.Some? && c.maps.value.googleMaps.Some?) ==> r == ""
  {
    match c
    case Record(_, Some(MapsField(Some(url)))) => url
    case _ => ""
  }

  /** `r` is `s` with some elements left out, the rest in their order. */
  ghost predicate IsSubsequence<T>(r: seq<T>, s: seq<T>)
  {
    r == [] || (s != [] && ((r[0] == s[0] && IsSubsequence(r[1..], s[1..])) || IsSubsequence(r, s[1..])))
  }

  /** The lower-cased safe name contains the (already lower-cased) query `q`. */
  predicate NameMatches(c: Country, q: string, lower: char -> char)
  {
    Includes(LowerCase(SafeCountryName(c), lower), q)
  }

  /**
   * `list.filter(c => safeCountryName(c).toLowerCase().includes(q))`: the
   * entries whose name matches, each as often as in `list`, in list order.
   */
  function FilterByName(list: seq<Country>, q: string, lower: char -> char): (r: seq<Country>)
    ensures IsSubsequence(r, list)
    ensures forall k :: 0 <= k < |r| ==> NameMatches(r[k], q, lower)
    ensures forall c :: multiset(r)[c] == if NameMatches(c, q, lower) then multiset(list)[c] else 0
  {
    if list == [] then []
    else
      var rest := FilterByName(list[1..], q, lower);
      assert list == [list[0]] + list[1..];
      if NameMatches(list[0], q, lower) then [list[0]] + rest else rest
  }

  /** Filtering twice with one query is filtering once. */
  lemma {:induction false} FilterByNameIdempotent(list: seq<Country>, q: string, lower: char -> char)
    ensures FilterByName(FilterByName(list, q, lower), q, lower) == FilterByName(list, q, lower)
  {
    if list != [] {
      FilterByNameIdempotent(list[1..], q, lower);
      var rest := FilterByName(list[1..], q, lower);
      if NameMatches(list[0], q, lower) {
        assert ([list[0]] + rest)[1..] == rest;
      }
    }
  }

  /** Every name contains the empty text, so the empty query keeps the whole list. */
  lemma {:induction false} FilterByEmptyQuery(list: seq<Country>, lower: char -> char)
    ensures FilterByName(list, [], lower) == list
  {
    if list != [] {
      IncludesEmpty(LowerCase(SafeCountryName(list[0]), lower));
      FilterByEmptyQuery(list[1..], lower);
      assert list == [list[0]] + list[1..];
    }
  }

  /** The query as `applyFilter` uses it: trimmed, then lower-cased. */
  function Query(text: string, lower: char -> char): string
  {
    LowerCase(Trim(text), lower)
  }

  /**
   * What `applyFilter` renders: the whole cache when the query is blank,
   * otherwise the cache filtered by the query. The blank case agrees with
   * filtering by the empty query, so the result is always that filter.
   */
  function Filtered(cache: seq<Country>, text: string, lower: char -> char): (r: seq<Country>)
    ensures AllWhiteSpace(text) ==> r == cache
    ensures r == FilterByName(cache, Query(text, lower), lower)
  {
    var q := Query(text, lower);
    TrimEmpty(text);
    if q == [] then (FilterByEmptyQuery(cache, lower); cache) else FilterByName(cache, q, lower)
  }

  /** Applying the same filter to its own output changes nothing. */
  lemma FilteredIdempotent(cache: seq<Country>, text: string, lower: char -> char)
    ensures Filtered(Filtered(cache, text, lower), text, lower) == Filtered(cache, text, lower)
  {
    FilterByNameIdempotent(cache, Query(text, lower), lower);
  }

  /** White space around the query does not change the result. */
  lemma FilteredIgnoresPadding(cache: seq<Country>, p: string, text: string, s: string, lower: char -> char)
    requires AllWhiteSpace(p) && AllWhiteSpace(s)
    ensures Filtered(cache, p + text + s, lower) == Filtered(cache, text, lower)
  {
    TrimIgnoresPadding(p, text, s);
  }

  /**
   * Queries that differ only in letter case select the same entries,
   * provided lower-casing neither makes nor unmakes white space.
   */
  lemma FilteredIgnoresCase(cache: seq<Country>, t1: string, t2: string, lower: char -> char)
    requires forall c :: IsWhiteSpace(lower(c)) <==> IsWhiteSpace(c)
    requires LowerCase(t1, lower) == LowerCase(t2, lower)
    ensures Filtered(cache, t1, lower) == Filtered(cache, t2, lower)
  {
    TrimLowerCaseCommute(t1, lower);
    TrimLowerCaseCommute(t2, lower);
  }

  lemma TrimLowerCaseCommute(s: string, lower: char -> char)
    requires forall c :: IsWhiteSpace(lower(c)) <==> IsWhiteSpace(c)
    ensures LowerCase(Trim(s), lower) == Trim(LowerCase(s, lower))
  {
    TrimStartLowerCase(s, lower);
    TrimEndLowerCase(TrimStart(s), lower);
  }

  lemma {:induction false} TrimStartLowerCase(s: string, lower: char -> char)
    requires forall c :: IsWhiteSpace(lower(c)) <==> IsWhiteSpace(c)
    ensures LowerCase(TrimStart(s), lower) == TrimStart(LowerCase(s, lower))
  {
    if s != [] && IsWhiteSpace(s[0]) {
      assert LowerCase(s, lower)[1..] == LowerCase(s[1..], lower);
      TrimStartLowerCase(s[1..], lower);
    }
  }

  lemma {:induction false} TrimEndLowerCase(s: string, lower: char -> char)
    requires forall c :: IsWhiteSpace(lower(c)) <==> IsWhiteSpace(c)
    ensures LowerCase(TrimEnd(s), lower) == TrimEnd(LowerCase(s, lower))
  {
    if s != [] && IsWhiteSpace(s[|s| - 1]) {
      var l := LowerCase(s, lower);
      assert l[..|l| - 1] == LowerCase(s[..|s| - 1], lower);
      TrimEndLowerCase(s[..|s| - 1], lower);
    }
  }

  /** `le(a, b)` stands for `a.localeCompare(b) <= 0`: a total preorder on names. */
  ghost predicate TotalPreorder(le: (string, string) -> bool)
  {
    (forall a, b :: le(a, b) || le(b, a)) &&
    (forall a, b, c :: le(a, b) && le(b, c) ==> le(a, c))
  }

  ghost predicate SortedByName(s: seq<Country>, le: (string, string) -> bool)
  {
    forall i, j :: 0 <= i < j < |s| ==> le(SafeCountryName(s[i]), SafeCountryName(s[j]))
  }

  /** Inserts `c` before the first entry of `s` whose name it does not follow. */
  function InsertByName(c: Country, s: seq<Country>, le: (string, string) -> bool): (r: seq<Country>)
    ensures multiset(r) == multiset(s) + multiset{c}
  {
    if s == [] then [c]
    else if le(SafeCountryName(c), SafeCountryName(s[0])) then [c] + s
    else
      assert s == [s[0]] + s[1..];
      [s[0]] + InsertByName(c, s[1..], le)
  }

  /** Inserting into a list sorted by name keeps it sorted. */
  lemma {:induction false} InsertByNameSorted(c: Country, s: seq<Country>, le: (string, string) -> bool)
    requires TotalPreorder(le) && SortedByName(s, le)
    ensures SortedByName(InsertByName(c, s, le), le)
  {
    if s == [] {
    } else if le(SafeCountryName(c), SafeCountryName(s[0])) {
      var r := [c] + s;
      forall i, j | 0 <= i < j < |r| ensures le(SafeCountryName(r[i]), SafeCountryName(r[j])) {
        if i == 0 && j > 1 {
          assert r[j] == s[j - 1];
          assert le(SafeCountryName(s[0]), SafeCountryName(s[j - 1]));
        } else if i > 0 {
          assert r[i] == s[i - 1] && r[j] == s[j - 1];
        }
      }
    } else {
      var tail := s[1..];
      assert SortedByName(tail, le) by {
        forall i, j | 0 <= i < j < |tail| ensures le(SafeCountryName(tail[i]), SafeCountryName(tail[j])) {
          assert tail[i] == s[i + 1] && tail[j] == s[j + 1];
        }
      }
      InsertByNameSorted(c, tail, le);
      var head := SafeCountryName(s[0]);
      forall k | 0 <= k < |tail| ensures le(head, SafeCountryName(tail[k])) {
        assert tail[k] == s[k + 1];
      }
      InsertByNameBounded(head, c, tail, le);
      var rest := InsertByName(c, tail, le);
      var r := [s[0]] + rest;
      forall i, j | 0 <= i < j < |r| ensures le(SafeCountryName(r[i]), SafeCountryName(r[j])) {
        if i == 0 {
          assert r[j] == rest[j - 1];
        } else {
          assert r[i] == rest[i - 1] && r[j] == rest[j - 1];
        }
      }
    }
  }

  /** Inserting an entry that does not precede `a` into entries that do not precede `a` gives such entries only. */
  lemma {:induction false} InsertByNameBounded(a: string, c: Country, s: seq<Country>, le: (string, string) -> bool)
    requires le(a, SafeCountryName(c))
    requires forall k :: 0 <= k < |s| ==> le(a, SafeCountryName(s[k]))
    ensures forall k :: 0 <= k < |InsertByName(c, s, le)| ==> le(a, SafeCountryName(InsertByName(c, s, le)[k]))
  {
    if s != [] && !le(SafeCountryName(c), SafeCountryName(s[0])) {
      var tail := s[1..];
      forall k | 0 <= k < |tail| ensures le(a, SafeCountryName(tail[k])) {
        assert tail[k] == s[k + 1];
      }
      InsertByNameBounded(a, c, tail, le);
      var rest := InsertByName(c, tail, le);
      var r := [s[0]] + rest;
      assert InsertByName(c, s, le) == r;
      forall k | 0 < k < |r| ensures le(a, SafeCountryName(r[k])) {
        assert r[k] == rest[k - 1];
      }
    } else if s != [] {
      var r := [c] + s;
      forall k | 0 < k < |r| ensures le(a, SafeCountryName(r[k])) {
        assert r[k] == s[k - 1];
      }
    }
  }

  /**
   * `data.slice().sort((a, b) => safeCountryName(a).localeCompare(safeCountryName(b)))`:
   * a copy of the payload, ordered by name, holding exactly its entries.
   */
  function SortByName(list: seq<Country>, le: (string, string) -> bool): (r: seq<Country>)
    requires TotalPreorder(le)
    ensures multiset(r) == multiset(list)
    ensures SortedByName(r, le)
  {
    if list == [] then []
    else
      assert list == [list[0]] + list[1..];
      var sorted := SortByName(list[1..], le);
      InsertByNameSorted(list[0], sorted, le);
      InsertByName(list[0], sorted, le)
  }

  /** The link cell of a row: a link when the map URL is not empty, a dash otherwise. */
  datatype Cell = Link(url: string) | Dash

  datatype Row = Row(index: nat, name: string, link: Cell)

  /** The rows `renderTable` appends for `list`, one `addRow` per entry. */
  function Rows(list: seq<Country>): (rows: seq<Row>)
    ensures |rows| == |list|
    ensures forall k :: 0 <= k < |list| ==>
              rows[k].index == k + 1 && rows[k].name == SafeCountryName(list[k]) &&
              (rows[k].link.Link? <==> SafeMapUrl(list[k]) != "") &&
              (rows[k].link.Link? ==> rows[k].link.url == SafeMapUrl(list[k]))
  {
    if list == [] then []
    else
      var last := list[|list| - 1];
      var url := SafeMapUrl(last);
      Rows(list[..|list| - 1]) + [Row(|list|, SafeCountryName(last), if url != "" then Link(url) else Dash)]
  }

  datatype Fault = HttpFailure(status: int) | NotAnArray

  /** The status line. */
  datatype Status = Idle | Loading | Found(count: nat) | Failed(kind: ErrorClass, info: Fault)

  /** The parsed JSON body: an array of entries, or any other value. */
  datatype Payload = JsonArray(items: seq<Country>) | OtherJson

  /** The fetched response, reduced to what `loadCountries` reads of it. */
  datatype Response = Response(ok: bool, status: int, body: Payload)

  /**
   * The page's state: the module variable `countriesCache`, the rows of the
   * table body, and the status line.
   */
  class CountriesPage {
    var cache: seq<Country>
    var rows: seq<Row>
    var status: Status

    constructor ()
      ensures cache == [] && rows == [] && status == Idle
    {
      cache := [];
      rows := [];
      status := Idle;
    }

    /** `addRow`: appends one row; the third cell is a link only for a non-empty URL. */
    method AddRow(index: nat, name: string, url: string)
      modifies this
      ensures rows == old(rows) + [Row(index, name, if url != "" then Link(url) else Dash)]
      ensures cache == old(cache) && status == old(status)
    {
      var cell := if url != "" then Link(url) else Dash;
      rows := rows + [Row(index, name, cell)];
    }

    /** `renderTable`: clears the table, adds rows numbered 1..n in list order, reports n. */
    method RenderTable(list: seq<Country>)
      modifies this
      ensures rows == Rows(list) && status == Found(|list|)
      ensures cache == old(cache)
    {
      rows := [];
      var idx := 0;
      while idx < |list|
        invariant 0 <= idx <= |list|
        invariant rows == Rows(list[..idx])
        invariant cache == old(cache)
      {
        assert list[..idx + 1][..idx] == list[..idx];
        AddRow(idx + 1, SafeCountryName(list[idx]), SafeMapUrl(list[idx]));
        idx := idx + 1;
      }
      assert list[..idx] == list;
      status := Found(|list|);
    }

    /**
     * `applyFilter`: renders the cache, or the entries of it whose name
     * contains the query; a missing filter input counts as an empty query.
     */
    method ApplyFilter(filterValue: Option<string>, lower: char -> char)
      modifies this
      ensures var text := if filterValue.Some? then filterValue.value else "";
        rows == Rows(Filtered(old(cache), text, lower)) && status == Found(|Filtered(old(cache), text, lower)|)
      ensures cache == old(cache)
    {
      var text := if filterValue.Some? then filterValue.value else "";
      var q := LowerCase(Trim(text), lower);
      if q == [] {
        RenderTable(cache);
        return;
      }
      var filtered := FilterByName(cache, q, lower);
      RenderTable(filtered);
    }

    /**
     * `loadCountries` after the fetch: the table is cleared first; a failed
     * response or a body that is not an array leaves the cache as it was and
     * reports the error; otherwise the cache becomes the payload sorted by
     * name and is rendered.
     */
    method LoadCountries(res: Response, le: (string, string) -> bool)
      requires TotalPreorder(le)
      modifies this
      ensures !res.ok ==> cache == old(cache) && rows == [] && status == Failed(Error, HttpFailure(res.status))
      ensures res.ok && res.body.OtherJson? ==> cache == old(cache) && rows == [] && status == Failed(TypeError, NotAnArray)
      ensures res.ok && res.body.JsonArray? ==>
                cache == SortByName(res.body.items, le) && rows == Rows(cache) && status == Found(|res.body.items|)
    {
      status := Loading;
      rows := [];
      if !res.ok {
        status := Failed(Error, HttpFailure(res.status));
        return;
      }
      if !res.body.JsonArray? {
        status := Failed(TypeError, NotAnArray);
        return;
      }
      cache := SortByName(res.body.items, le);
      RenderTable(cache);
    }
  }
}
