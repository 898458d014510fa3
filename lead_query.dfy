/** The lead list query of `GET /leads`: the query-string parameters, the
    filter built from them (always scoped to the requesting user), the
    page and limit arithmetic, and the page of results the database
    returns for the filter sorted newest first. */
module LeadQuery {
  import opened Wrappers
  import opened JsString
  import opened LeadModel

  /** The five query-string parameters the handler reads; `None` is a
      parameter that is absent. */
  datatype ListParams = ListParams(
    page: Option<string>,
    limit: Option<string>,
    q: Option<string>,
    status: Option<string>,
    source: Option<string>)

  /** The filter object: `createdBy` always, `$or` when there is a search
      term, and exact `status` / `source` constraints when requested. */
  datatype Query = Query(owner: UserId, search: Option<string>, status: Option<string>, source: Option<string>)

  /** The four paths of the `$or` clause, as the controller writes them. */
  datatype SearchPath = NamePath | EmailPath | CityPath | CompanyPath

  /** The value a lead holds at a search path. The lead schema has no
      `name` path (only `first_name` and `last_name`), so that clause of the
      search never matches. */
  function PathValue(d: LeadDoc, p: SearchPath): Option<string> {
    match p
    case NamePath => None
    case EmailPath => d.email
    case CityPath => d.city
    case CompanyPath => d.company
  }

  /** `{ path: new RegExp(term, "i") }`: the path holds a string that
      contains the term, ignoring case. The term is taken literally. */
  predicate PatternHit(term: string, v: Option<string>) {
    v.Some? && ContainsIgnoreCase(v.value, term)
  }

  /** The `$or` over name, email, city and company. */
  predicate SearchHit(term: string, d: LeadDoc) {
    || PatternHit(term, PathValue(d, NamePath))
    || PatternHit(term, PathValue(d, EmailPath))
    || PatternHit(term, PathValue(d, CityPath))
    || PatternHit(term, PathValue(d, CompanyPath))
  }

  /** A lead satisfies every constraint of the filter. */
  predicate Matches(q: Query, lead: Lead) {
    && lead.doc.createdBy == Some(q.owner)
    && (q.search.Some? ==> SearchHit(q.search.value, lead.doc))
    && (q.status.Some? ==> lead.doc.status == q.status)
    && (q.source.Some? ==> lead.doc.source == q.source)
  }

  /** `if (v && v !== "all")`: a requested enum value is used as given,
      except when empty or "all". */
  function EnumConstraint(v: Option<string>): (r: Option<string>)
    ensures r.Some? <==> v.Some? && v.value != "" && v.value != "all"
    ensures r.Some? ==> r == v
  {
    if v.Some? && v.value != "" && v.value != "all" then v else None
  }

  /** The filter a request asks for. */
  function RequestedQuery(owner: UserId, q: Option<string>, status: Option<string>, source: Option<string>): Query {
    var term := Trim(q.GetOr(""));
    Query(owner, if term != "" then Some(term) else None, EnumConstraint(status), EnumConstraint(source))
  }

  /** No parameter reaches the owner; there is a search term exactly when
      `q` has a non-blank character, and it is then `q` trimmed; the enum
      constraints are as `EnumConstraint` says. */
  lemma QueryShape(owner: UserId, q: Option<string>, status: Option<string>, source: Option<string>)
    ensures var r := RequestedQuery(owner, q, status, source);
      && r.owner == owner
      && (r.search.Some? <==> !AllWhiteSpace(q.GetOr("")))
      && (r.search.Some? ==> r.search.value == Trim(q.GetOr("")) && r.search.value != "")
      && (r.status.Some? <==> status.Some? && status.value != "" && status.value != "all")
      && (r.status.Some? ==> r.status == status)
      && (r.source.Some? <==> source.Some? && source.value != "" && source.value != "all")
      && (r.source.Some? ==> r.source == source)
  {
  }

  /** Builds the filter step by step, as the handler does. */
  method BuildQuery(owner: UserId, q: Option<string>, status: Option<string>, source: Option<string>)
    returns (query: Query)
    ensures query == RequestedQuery(owner, q, status, source)
  {
    ghost var requested := RequestedQuery(owner, q, status, source);
    query := Query(owner, None, None, None);

    var qTrim := Trim(q.GetOr(""));
    if qTrim != "" {
      query := query.(search := Some(qTrim));
    }
    assert query.search == requested.search;

    if status.Some? && status.value != "" && status.value != "all" {
      query := query.(status := status);
    }

    if source.Some? && source.value != "" && source.value != "all" {
      query := query.(source := source);
    }
  }

  function Min(a: int, b: int): int {
    if a <= b then a else b
  }

  function Abs(a: int): nat {
    if a < 0 then -a else a
  }

  /** `page = Number.parseInt(page, 10) || 1`, with `page = 1` when absent. */
  function PageParam(raw: Option<string>): (page: int)
    ensures page != 0
    ensures raw.Some? && ParseInt(raw.value).Some? && ParseInt(raw.value).value != 0
      ==> page == ParseInt(raw.value).value
    ensures raw.None? || ParseInt(raw.value).None? || ParseInt(raw.value) == Some(0) ==> page == 1
  {
    if raw.None? then 1
    else match ParseInt(raw.value)
      case Some(n) => if n != 0 then n else 1
      case None => 1
  }

  /** `limit = Math.min(Number.parseInt(limit, 10) || 20, 100)`, with
      `limit = 20` when absent. */
  function LimitParam(raw: Option<string>): (limit: int)
    ensures limit != 0 && limit <= 100
    ensures raw.Some? && ParseInt(raw.value).Some? && ParseInt(raw.value).value != 0
      ==> limit == Min(ParseInt(raw.value).value, 100)
    ensures raw.None? || ParseInt(raw.value).None? || ParseInt(raw.value) == Some(0) ==> limit == 20
  {
    var n := if raw.None? then 20
      else match ParseInt(raw.value)
        case Some(v) => if v != 0 then v else 20
        case None => 20;
    Min(n, 100)
  }

  /** A number written in the query string is the page, unless it is 0;
      negative numbers are kept. */
  lemma {:induction false} PageOfNumber(n: int, rest: string)
    requires rest == [] || !IsDigit(rest[0])
    ensures PageParam(Some(Show(n) + rest)) == if n == 0 then 1 else n
  {
    ParseIntShow(n, rest);
  }

  /** A number written in the query string is the limit, unless it is 0,
      capped at 100; negative numbers are kept. */
  lemma {:induction false} LimitOfNumber(n: int, rest: string)
    requires rest == [] || !IsDigit(rest[0])
    ensures LimitParam(Some(Show(n) + rest)) == if n == 0 then 20 else Min(n, 100)
  {
    ParseIntShow(n, rest);
  }

  /** Absent parameters and parameters that do not start with a number
      give the defaults. */
  lemma PagingDefaults(raw: Option<string>)
    requires raw.None? || ParseInt(raw.value).None?
    ensures PageParam(raw) == 1 && LimitParam(raw) == 20
  {
  }

  /** "0" and "abc" fall back to the defaults. */
  lemma ZeroAndTextFallBack()
    ensures PageParam(Some("0")) == 1 && LimitParam(Some("0")) == 20
    ensures PageParam(Some("abc")) == 1 && LimitParam(Some("abc")) == 20
  {
    assert Show(0) + "" == "0";
    PageOfNumber(0, "");
    LimitOfNumber(0, "");
    assert DigitPrefix("abc") == [];
  }

  /** Negative numbers pass through unchanged. */
  lemma NegativesPassThrough()
    ensures PageParam(Some("-3")) == -3 && LimitParam(Some("-5")) == -5
  {
    assert Show(-3) + "" == "-3";
    PageOfNumber(-3, "");
    assert Show(-5) + "" == "-5";
    LimitOfNumber(-5, "");
  }

  /** A limit above 100 is capped. */
  lemma LargeLimitCapped()
    ensures LimitParam(Some("250")) == 100
  {
    assert ShowNat(25) == "25";
    assert Show(250) + "" == "250";
    LimitOfNumber(250, "");
  }

  /** Leading white space and trailing text are ignored. */
  lemma PagePrefixRead()
    ensures PageParam(Some(" 7 pages")) == 7
  {
    assert " 7 pages" == " " + (Show(7) + " pages");
    ParseIntSkipsWhiteSpace(" ", Show(7) + " pages");
    PageOfNumber(7, " pages");
  }

  /** A `+` sign is read as `parseInt` reads it. */
  lemma PlusSignRead()
    ensures PageParam(Some("+7")) == 7
  {
    assert DigitsValue("7") == 7;
    ParseIntReads("", "+", "7", "");
    assert "" + ("+" + "7" + "") == "+7";
  }

  /** Leading zeros do not change the number. */
  lemma LeadingZerosRead()
    ensures LimitParam(Some("007")) == 7
  {
    assert "00"[..1] == "0" && "007"[..2] == "00";
    assert DigitsValue("00") == 0;
    assert DigitsValue("007") == 7;
    ParseIntReads("", "", "007", "");
    assert "" + ("" + "007" + "") == "007";
  }

  /** A negative number with a leading zero. */
  lemma NegativeLeadingZeroRead()
    ensures PageParam(Some("-05")) == -5
  {
    assert "05"[..1] == "0";
    assert DigitsValue("05") == 5;
    ParseIntReads("", "-", "05", "");
    assert "" + ("-" + "05" + "") == "-05";
  }

  /** A page and a limit that are both negative give a positive skip. */
  lemma NegativePageAndLimit()
    ensures Skip(PageParam(Some("-3")), LimitParam(Some("-5"))) == 20
  {
    NegativesPassThrough();
  }

  /** `(page - 1) * limit`. */
  function Skip(page: int, limit: int): int {
    (page - 1) * limit
  }

  /** `Math.ceil(total / limit)` for a limit that is never 0. */
  function TotalPages(total: nat, limit: int): (pages: int)
    requires limit != 0
    ensures limit > 0 ==> (pages - 1) * limit < total <= pages * limit || (total == 0 && pages == 0)
    ensures limit < 0 ==> pages * limit <= total < (pages - 1) * limit
    ensures total == 0 ==> pages == 0
  {
    if limit > 0 then
      var p := (total + limit - 1) / limit;
      CeilDivBounds(total, limit);
      p
    else
      var m := -limit;
      var p := total / m;
      FloorDivBounds(total, m);
      assert -p * limit == p * m;
      assert (-p - 1) * limit == (p + 1) * m;
      -p
  }

  lemma FloorDivBounds(t: nat, m: int)
    requires m > 0
    ensures (t / m) * m <= t < (t / m + 1) * m
  {
    assert t == (t / m) * m + t % m;
  }

  lemma CeilDivBounds(t: nat, m: int)
    requires m > 0
    ensures t == 0 ==> (t + m - 1) / m == 0
    ensures t > 0 ==> ((t + m - 1) / m - 1) * m < t <= ((t + m - 1) / m) * m
  {
    var q := (t + m - 1) / m;
    assert t + m - 1 == q * m + (t + m - 1) % m;
    if t == 0 {
      assert 0 <= m - 1 < m;
    }
  }

  /** The leads of `docs` that match the filter, in store order. */
  function Select(docs: seq<Lead>, q: Query): (r: seq<Lead>)
    ensures |r| <= |docs|
    ensures forall x :: x in r <==> x in docs && Matches(q, x)
    ensures forall x :: multiset(r)[x] == if Matches(q, x) then multiset(docs)[x] else 0
  {
    if docs == [] then []
    else
      assert docs == [docs[0]] + docs[1..];
      (if Matches(q, docs[0]) then [docs[0]] else []) + Select(docs[1..], q)
  }

  /** `sort({ created_at: -1 })`. */
  predicate NewestFirst(s: seq<Lead>) {
    forall i, j :: 0 <= i < j < |s| ==> s[i].created_at >= s[j].created_at
  }

  function InsertNewest(x: Lead, s: seq<Lead>): (r: seq<Lead>)
    ensures multiset(r) == multiset(s) + multiset{x}
    ensures |r| == |s| + 1
  {
    if s == [] || x.created_at >= s[0].created_at then [x] + s
    else
      assert s == [s[0]] + s[1..];
      [s[0]] + InsertNewest(x, s[1..])
  }

  /** No lead of `s` is newer than `t`. */
  predicate NoNewerThan(t: int, s: seq<Lead>) {
    forall i :: 0 <= i < |s| ==> s[i].created_at <= t
  }

  lemma ConsKeepsOrder(h: Lead, s: seq<Lead>)
    requires NewestFirst(s) && NoNewerThan(h.created_at, s)
    ensures NewestFirst([h] + s)
  {
    var r := [h] + s;
    forall i, j | 0 <= i < j < |r| ensures r[i].created_at >= r[j].created_at {
      assert r[j] == s[j - 1];
      if i > 0 {
        assert r[i] == s[i - 1];
      }
    }
  }

  lemma InsertNoNewer(t: int, x: Lead, s: seq<Lead>)
    requires NoNewerThan(t, s) && x.created_at <= t
    ensures NoNewerThan(t, InsertNewest(x, s))
  {
    var r := InsertNewest(x, s);
    forall i | 0 <= i < |r| ensures r[i].created_at <= t {
      assert r[i] in multiset(r);
      if r[i] != x {
        assert r[i] in multiset(s);
        var m :| 0 <= m < |s| && s[m] == r[i];
      }
    }
  }

  /** Inserting into a newest-first sequence keeps it newest first. */
  lemma {:induction false} InsertKeepsOrder(x: Lead, s: seq<Lead>)
    requires NewestFirst(s)
    ensures NewestFirst(InsertNewest(x, s))
  {
    if s != [] && x.created_at < s[0].created_at {
      var tail := s[1..];
      InsertKeepsOrder(x, tail);
      assert NoNewerThan(s[0].created_at, tail);
      InsertNoNewer(s[0].created_at, x, tail);
      ConsKeepsOrder(s[0], InsertNewest(x, tail));
    }
  }

  /** The leads sorted by `created_at`, newest first; leads created at the
      same time keep their store order. */
  function SortNewestFirst(s: seq<Lead>): (r: seq<Lead>)
    ensures multiset(r) == multiset(s)
    ensures NewestFirst(r)
  {
    if s == [] then []
    else
      assert s == [s[0]] + s[1..];
      var sorted := SortNewestFirst(s[1..]);
      InsertKeepsOrder(s[0], sorted);
      InsertNewest(s[0], sorted)
  }

  /** `.skip(skip).limit(limit)` on the sorted results. A negative limit
      returns at most its magnitude; a limit of 0 means no limit. */
  function Window<T>(s: seq<T>, skip: nat, limit: int): (r: seq<T>)
    ensures |r| == if skip >= |s| then 0 else if limit == 0 then |s| - skip else Min(Abs(limit), |s| - skip)
    ensures forall i :: 0 <= i < |r| ==> skip + i < |s| && r[i] == s[skip + i]
  {
    var lo := Min(skip, |s|);
    var hi := if limit == 0 then |s| else Min(skip + Abs(limit), |s|);
    s[lo..hi]
  }

  /** The leads of one page: those matching the filter, newest first. */
  function Results(docs: seq<Lead>, q: Query): seq<Lead> {
    SortNewestFirst(Select(docs, q))
  }

  /** Every lead on a page matches the filter, so it belongs to the filter's
      owner, and the page is in newest-first order. */
  lemma PageMatches(docs: seq<Lead>, q: Query, skip: nat, limit: int)
    ensures forall x :: x in Window(Results(docs, q), skip, limit) ==> x in docs && Matches(q, x) && x.doc.createdBy == Some(q.owner)
    ensures NewestFirst(Window(Results(docs, q), skip, limit))
  {
    var selected := Select(docs, q);
    var sorted := SortNewestFirst(selected);
    WindowFrom(sorted, skip, limit);
    ResultsFromSelected(docs, q, sorted);
    WindowKeepsOrder(sorted, skip, limit);
  }

  /** A window holds only leads of what it is cut from. */
  lemma WindowFrom<T>(s: seq<T>, skip: nat, limit: int)
    ensures forall x :: x in Window(s, skip, limit) ==> x in s
  {
    var w := Window(s, skip, limit);
    forall x | x in w ensures x in s {
      var i :| 0 <= i < |w| && w[i] == x;
      assert s[skip + i] == x;
    }
  }

  lemma ResultsFromSelected(docs: seq<Lead>, q: Query, sorted: seq<Lead>)
    requires sorted == SortNewestFirst(Select(docs, q))
    ensures forall x :: x in sorted ==> x in docs && Matches(q, x)
  {
    forall x | x in sorted ensures x in docs && Matches(q, x) {
      assert x in multiset(sorted);
      assert x in Select(docs, q);
    }
  }

  lemma WindowKeepsOrder(s: seq<Lead>, skip: nat, limit: int)
    requires NewestFirst(s)
    ensures NewestFirst(Window(s, skip, limit))
  {
    var w := Window(s, skip, limit);
    forall i, j | 0 <= i < j < |w| ensures w[i].created_at >= w[j].created_at {
      assert w[i] == s[skip + i] && w[j] == s[skip + j];
    }
  }

  lemma SecondPageParams()
    ensures PageParam(Some("2")) == 2 && LimitParam(Some("10")) == 10 && Skip(2, 10) == 10
  {
    assert Show(2) + "" == "2";
    PageOfNumber(2, "");
    assert ShowNat(10) == "10";
    assert Show(10) + "" == "10";
    LimitOfNumber(10, "");
  }

  lemma TwentyFiveInPagesOfTen()
    ensures TotalPages(25, 10) == 3
  {
    assert (25 + 10 - 1) / 10 == 3;
  }

  lemma WindowInside<T>(s: seq<T>, skip: nat, limit: nat)
    requires 0 < limit && skip + limit <= |s|
    ensures Window(s, skip, limit) == s[skip..skip + limit]
  {
  }

  lemma ResultsLength(docs: seq<Lead>, q: Query)
    ensures |Results(docs, q)| == |Select(docs, q)|
  {
    var r := Results(docs, q);
    assert |multiset(r)| == |multiset(Select(docs, q))|;
  }

  /** Page 2 with limit 10 over 25 matching leads holds the 11th to the
      20th newest, and there are 3 pages. */
  lemma SecondPageOfTwentyFive(docs: seq<Lead>, q: Query)
    requires |Select(docs, q)| == 25
    ensures PageParam(Some("2")) == 2 && LimitParam(Some("10")) == 10 && Skip(2, 10) == 10
    ensures |Results(docs, q)| == 25 && Window(Results(docs, q), 10, 10) == Results(docs, q)[10..20]
    ensures TotalPages(25, 10) == 3
  {
    SecondPageParams();
    TwentyFiveInPagesOfTen();
    ResultsLength(docs, q);
    WindowInside(Results(docs, q), 10, 10);
  }

  /** The `name` clause plays no part: a lead whose first or last name
      contains the term, but whose email, city and company do not, is not
      found by the search. */
  lemma NameIsNotSearched(term: string, d: LeadDoc)
    requires !PatternHit(term, d.email) && !PatternHit(term, d.city) && !PatternHit(term, d.company)
    ensures !SearchHit(term, d)
  {
  }

  /** The search finds a lead whose email contains the term, written in
      any letter case. */
  lemma SearchFindsEmail(d: LeadDoc, before: string, t: string, after: string, term: string)
    requires d.email == Some(before + t + after) && ToLower(t) == ToLower(term)
    ensures SearchHit(term, d)
  {
    ContainsInfix(before, t, after);
  }
}
