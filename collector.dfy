/**
 * `GmailCollector` (mail_collector/gmail_collector.py): the search queries
 * of a run, the manifest of their results, and the collection loop that
 * materialises every listed message with bounded retries and two
 * append-only logs.
 */
module Collector {
  import opened Wrappers
  import opened GmailApi
  import opened Digits
  import opened Postman
  import opened Retry

  // ---------------------------------------------------------------------
  // Dates and search queries

  /** A calendar date, as the `datetime` fields of a search query carry it. */
  datatype CalendarDate = CalendarDate(year: nat, month: nat, day: nat)

  /** A leap year of the proleptic Gregorian calendar that `datetime` uses. */
  predicate IsLeapYear(year: nat)
  {
    year % 4 == 0 && (year % 100 != 0 || year % 400 == 0)
  }

  /** The number of days in `month` of `year`. */
  function DaysInMonth(year: nat, month: nat): (n: nat)
    requires 1 <= month <= 12
    ensures 28 <= n <= 31
  {
    if month == 2 then (if IsLeapYear(year) then 29 else 28)
    else if month == 4 || month == 6 || month == 9 || month == 11 then 30
    else 31
  }

  /** The dates a `datetime` can hold: years 1 to 9999, and a day that exists in its month. */
  predicate ValidDate(d: CalendarDate)
  {
    1 <= d.year <= 9999 && 1 <= d.month <= 12 && 1 <= d.day <= DaysInMonth(d.year, d.month)
  }

  type Date = d: CalendarDate | ValidDate(d) witness CalendarDate(2000, 1, 1)

  /** `strftime("%Y/%m/%d")`: four-digit year, two-digit month and day, separated by '/'. */
  function FormatDate(d: Date): (s: string)
    ensures |s| == 10 && s[4] == '/' && s[7] == '/'
  {
    assert Pow10(2) == 100;
    assert Pow10(4) == 10 * 10 * Pow10(2);
    ZeroPadRoundTrip(d.year, 4);
    ZeroPadRoundTrip(d.month, 2);
    ZeroPadRoundTrip(d.day, 2);
    ZeroPad(d.year, 4) + "/" + ZeroPad(d.month, 2) + "/" + ZeroPad(d.day, 2)
  }

  /** Reads a `YYYY/MM/DD` text back as a date; None when it is not one. */
  function ParseDate(s: string): Option<Date>
  {
    if |s| == 10 && s[4] == '/' && s[7] == '/'
       && AllDigits(s[..4]) && AllDigits(s[5..7]) && AllDigits(s[8..])
    then
      var d := CalendarDate(ParseDigits(s[..4]), ParseDigits(s[5..7]), ParseDigits(s[8..]));
      if ValidDate(d) then Some(d) else None
    else None
  }

  /** A formatted date reads back as the same date, so distinct dates give distinct query tokens. */
  lemma FormatDateRoundTrip(d: Date)
    ensures ParseDate(FormatDate(d)) == Some(d)
  {
    assert Pow10(2) == 100;
    assert Pow10(4) == 10 * 10 * Pow10(2);
    ZeroPadRoundTrip(d.year, 4);
    ZeroPadRoundTrip(d.month, 2);
    ZeroPadRoundTrip(d.day, 2);
    var y, m, dd := ZeroPad(d.year, 4), ZeroPad(d.month, 2), ZeroPad(d.day, 2);
    var s := FormatDate(d);
    assert s == y + "/" + m + "/" + dd;
    assert s[..4] == y;
    assert s[5..7] == m;
    assert s[8..] == dd;
  }

  /**
   * `SearchQuery`: free text, an optional start and end date, and the most
   * results to keep.  A date set to `None` drops its token.
   */
  datatype SearchQuery = SearchQuery(query: Option<string>, startDate: Option<Date>, endDate: Option<Date>, maxResults: int)

  /** The free text of a query, "" when it has none. */
  function FreeText(q: SearchQuery): string
  {
    if q.query.Some? then q.query.value else ""
  }

  /** The ` after:YYYY/MM/DD` token of a query with a start date. */
  function AfterToken(q: SearchQuery): string
  {
    if q.startDate.Some? then " after:" + FormatDate(q.startDate.value) else ""
  }

  /** The ` before:YYYY/MM/DD` token of a query with an end date. */
  function BeforeToken(q: SearchQuery): string
  {
    if q.endDate.Some? then " before:" + FormatDate(q.endDate.value) else ""
  }

  /** The query string `_search_queries` sends for `q`. */
  function QueryString(q: SearchQuery): (s: string)
    ensures |s| == |FreeText(q)| + (if q.startDate.Some? then 17 else 0) + (if q.endDate.Some? then 18 else 0)
  {
    FreeText(q) + AfterToken(q) + BeforeToken(q)
  }

  /** The `after:` token: seven characters of keyword, then the start date in a form that reads back. */
  lemma AfterTokenLayout(q: SearchQuery)
    requires q.startDate.Some?
    ensures var a := AfterToken(q);
      |a| == 17 && a[..7] == " after:" && ParseDate(a[7..]) == q.startDate
  {
    FormatDateRoundTrip(q.startDate.value);
    var a := AfterToken(q);
    assert a[..7] == " after:" && a[7..] == FormatDate(q.startDate.value);
  }

  /** The `before:` token: eight characters of keyword, then the end date in a form that reads back. */
  lemma BeforeTokenLayout(q: SearchQuery)
    requires q.endDate.Some?
    ensures var b := BeforeToken(q);
      |b| == 18 && b[..8] == " before:" && ParseDate(b[8..]) == q.endDate
  {
    FormatDateRoundTrip(q.endDate.value);
    var b := BeforeToken(q);
    assert b[..8] == " before:" && b[8..] == FormatDate(q.endDate.value);
  }

  /** Cutting `x + y + z` at the ends of `x` and of `y[..k]`. */
  lemma MiddleSlices<T>(x: seq<T>, y: seq<T>, z: seq<T>, k: nat)
    requires k <= |y|
    ensures var s := x + y + z;
      s[..|x|] == x && s[|x|..|x| + k] == y[..k] && s[|x| + k..|x| + |y|] == y[k..]
  {
  }

  /** Cutting `x + y` at the end of `y[..k]`. */
  lemma SuffixSlices<T>(x: seq<T>, y: seq<T>, k: nat)
    requires k <= |y|
    ensures var s := x + y;
      s[|x|..|x| + k] == y[..k] && s[|x| + k..] == y[k..]
  {
  }

  /**
   * The query string is the free text, then an `after:` token exactly when
   * there is a start date, then a `before:` token exactly when there is an
   * end date, each carrying its date in a form that reads back as that date.
   */
  lemma QueryStringLayout(q: SearchQuery)
    ensures var r := QueryString(q); var t := |FreeText(q)|;
      var a := if q.startDate.Some? then 17 else 0;
      var b := if q.endDate.Some? then 18 else 0;
      && |r| == t + a + b
      && r[..t] == FreeText(q)
      && (q.startDate.Some? ==> r[t..t + 7] == " after:" && ParseDate(r[t + 7..t + 17]) == q.startDate)
      && (q.endDate.Some? ==> r[|r| - 18..|r| - 10] == " before:" && ParseDate(r[|r| - 10..]) == q.endDate)
  {
    var text, after, before := FreeText(q), AfterToken(q), BeforeToken(q);
    var k := if q.startDate.Some? then 7 else 0;
    MiddleSlices(text, after, before, k);
    if q.startDate.Some? {
      AfterTokenLayout(q);
    }
    if q.endDate.Some? {
      BeforeTokenLayout(q);
      SuffixSlices(text + after, before, 8);
    }
  }

  /** Python's `lst[:n]`: a negative `n` counts back from the end. */
  function SlicePrefix<T>(lst: seq<T>, n: int): (r: seq<T>)
    ensures |r| == if n >= 0 then (if n < |lst| then n else |lst|) else (if |lst| + n > 0 then |lst| + n else 0)
    ensures r == lst[..|r|]
  {
    if n >= 0 then (if n < |lst| then lst[..n] else lst)
    else (if |lst| + n > 0 then lst[..|lst| + n] else [])
  }

  lemma AppendNothing<T>(s: seq<T>, e: seq<T>)
    requires e == []
    ensures s + e == s
  {
  }

  /** The loop body of `_search_queries` that assembles the query string with `+=`. */
  method BuildQuery(q: SearchQuery) returns (totalQuery: string)
    ensures totalQuery == QueryString(q)
  {
    if q.query.Some? {
      totalQuery := q.query.value;
    } else {
      totalQuery := "";
    }
    if q.startDate.Some? {
      totalQuery := totalQuery + AfterToken(q);
    } else {
      AppendNothing(totalQuery, AfterToken(q));
    }
    if q.endDate.Some? {
      totalQuery := totalQuery + BeforeToken(q);
    } else {
      AppendNothing(totalQuery, BeforeToken(q));
    }
  }

  /** The result list `_search_queries` keeps for `q` when the endpoint answers with `pages`. */
  function SearchResult(q: SearchQuery, pages: seq<Page>): seq<MessageRef>
    requires Ends(pages)
  {
    SlicePrefix(Collected(pages[..LastPage(pages) + 1]), q.maxResults)
  }

  /** The requests one query's search makes: one per page read, the first without a token, all with the query's string. */
  predicate RequestsFor(q: SearchQuery, pages: seq<Page>, requests: seq<Request>)
    requires Ends(pages)
  {
    && |requests| == LastPage(pages) + 1 && requests[0].pageToken == None
    && forall r :: r in requests ==> r.query == QueryString(q)
  }

  /** The requests the search for `q` makes: one per page read, each after the first carrying the previous page's token. */
  function SearchRequests(q: SearchQuery, pages: seq<Page>): seq<Request>
    requires Ends(pages)
  {
    seq(LastPage(pages) + 1, j requires 0 <= j <= LastPage(pages) =>
      Request(QueryString(q), if j == 0 then None else pages[j - 1].nextPageToken))
  }

  /** These are the requests `RequestsFor` describes. */
  lemma SearchRequestsFor(q: SearchQuery, pages: seq<Page>)
    requires Ends(pages)
    ensures RequestsFor(q, pages, SearchRequests(q, pages))
  {
    var reqs := SearchRequests(q, pages);
    forall r | r in reqs ensures r.query == QueryString(q) {
      var j :| 0 <= j < |reqs| && reqs[j] == r;
    }
  }

  /** The requests `SearchMessages` reports for a query's string are the search's requests. */
  lemma SearchMessagesRequests(q: SearchQuery, pages: seq<Page>, reqs: seq<Request>)
    requires Ends(pages)
    requires |reqs| == LastPage(pages) + 1 && reqs[0] == Request(QueryString(q), None)
    requires forall j :: 1 <= j < |reqs| ==> reqs[j] == Request(QueryString(q), pages[j - 1].nextPageToken)
    ensures reqs == SearchRequests(q, pages)
  {
  }

  // ---------------------------------------------------------------------
  // The collection plan

  /** The ids of a result list, in order. */
  function Ids(refs: seq<MessageRef>): (r: seq<string>)
    ensures |r| == |refs| && forall i :: 0 <= i < |refs| ==> r[i] == refs[i].id
  {
    seq(|refs|, i requires 0 <= i < |refs| => refs[i].id)
  }

  /** The key of result list `i` in the manifest. */
  function ManifestKey(i: nat): string
  {
    "search_query_" + NatToString(i)
  }

  /** Distinct lists get distinct keys. */
  lemma ManifestKeyInjective(i: nat, j: nat)
    ensures ManifestKey(i) == ManifestKey(j) <==> i == j
  {
    assert ManifestKey(i)[13..] == NatToString(i);
    assert ManifestKey(j)[13..] == NatToString(j);
    NatToStringInjective(i, j);
  }

  /** The `search_query_results.json` manifest: key `search_query_<i>` to the ids of list `i`. */
  function Manifest(results: seq<seq<MessageRef>>): (m: map<string, seq<string>>)
    ensures forall i :: 0 <= i < |results| ==> ManifestKey(i) in m && m[ManifestKey(i)] == Ids(results[i])
    ensures forall k :: k in m ==> exists i :: 0 <= i < |results| && k == ManifestKey(i)
  {
    forall i: nat, j: nat ensures ManifestKey(i) == ManifestKey(j) ==> i == j {
      ManifestKeyInjective(i, j);
    }
    map i | 0 <= i < |results| :: ManifestKey(i) := Ids(results[i])
  }

  /** `number_of_search_results`: the length of each result list. */
  function ResultCounts(results: seq<seq<MessageRef>>): (c: seq<nat>)
    ensures |c| == |results| && forall i :: 0 <= i < |results| ==> c[i] == |results[i]|
  {
    seq(|results|, i requires 0 <= i < |results| => |results[i]|)
  }

  /** Every listed message, list after list. */
  function AllIds(results: seq<seq<MessageRef>>): seq<string>
  {
    if results == [] then [] else Ids(results[0]) + AllIds(results[1..])
  }

  function Sum(xs: seq<nat>): nat
  {
    if xs == [] then 0 else xs[0] + Sum(xs[1..])
  }

  /** The run list holds as many ids as the collection plan counts. */
  lemma {:induction false} AllIdsLength(results: seq<seq<MessageRef>>)
    ensures |AllIds(results)| == Sum(ResultCounts(results))
  {
    if results != [] {
      AllIdsLength(results[1..]);
      assert ResultCounts(results)[1..] == ResultCounts(results[1..]);
    }
  }

  /** From list `i` on, the run list is list `i`'s ids followed by the lists after it. */
  lemma AllIdsCons(results: seq<seq<MessageRef>>, i: nat)
    requires i < |results|
    ensures AllIds(results[i..]) == Ids(results[i]) + AllIds(results[i + 1..])
  {
    assert results[i..][0] == results[i] && results[i..][1..] == results[i + 1..];
  }

  /** From list `i` on, the run list is the manifest's list `i` followed by the lists after it. */
  lemma AllIdsFromManifest(results: seq<seq<MessageRef>>, i: nat)
    requires i < |results|
    ensures AllIds(results[i..]) == Manifest(results)[ManifestKey(i)] + AllIds(results[i + 1..])
  {
    AllIdsCons(results, i);
  }

  /** The ids of the first `i + 1` lists are those of the first `i` followed by list `i`'s. */
  lemma AllIdsSnoc(results: seq<seq<MessageRef>>, i: nat)
    requires i < |results|
    ensures AllIds(results[..i + 1]) == AllIds(results[..i]) + Ids(results[i])
  {
    var p := results[..i + 1];
    if i == 0 {
      assert p[1..] == [];
    } else {
      assert p[0] == results[0] && p[1..] == results[1..][..i];
      AllIdsSnoc(results[1..], i - 1);
      assert results[..i][1..] == results[1..][..i - 1];
    }
  }

  /**
   * The run over the first `i + 1` lists is the run over the first `i`
   * followed by list `i`'s messages from the attempt after the last so far.
   */
  lemma ListStep(results: seq<seq<MessageRef>>, i: nat, maxRetries: int, oracle: nat -> Outcome)
    requires i < |results|
    ensures var P := RunTally(AllIds(results[..i]), maxRetries, oracle);
      var L := RunFrom(Ids(results[i]), maxRetries, oracle, |P.attempted|);
      && RunTally(AllIds(results[..i + 1]), maxRetries, oracle) == Then(P, L)
      && |Then(P, L).attempted| == |P.attempted| + |L.attempted|
      && |Then(P, L).errors| == |P.errors| + |L.errors|
  {
    AllIdsSnoc(results, i);
    var P := RunTally(AllIds(results[..i]), maxRetries, oracle);
    var L := RunFrom(Ids(results[i]), maxRetries, oracle, |P.attempted|);
    RunFromAppend(AllIds(results[..i + 1]), AllIds(results[..i]), Ids(results[i]), maxRetries, oracle, 0);
    ThenLengths(P, L);
  }

  // ---------------------------------------------------------------------
  // The collector object

  class GmailCollector {
    const maxRetries: int
    const postman: GmailPostman
    /** One result list per search query. */
    var searchQueryResults: seq<seq<MessageRef>>
    /** The manifest written to `search_query_results.json`. */
    var manifest: map<string, seq<string>>
    /** `number_of_search_results` of the collection plan. */
    var resultCounts: seq<nat>
    /** The lines of `completed_log.json`. */
    var completedLog: seq<string>
    /** The lines of `error_log.json`. */
    var errorLog: seq<string>
    /** The id of every `read_message` attempt, in order. */
    ghost var attempted: seq<string>

    /**
     * `GmailCollector(attr)`: runs the search queries, each answered by its
     * own pages, and records the plan; the logs of the new run folder start
     * empty.
     */
    constructor (postman: GmailPostman, queries: seq<SearchQuery>, responses: seq<seq<Page>>, maxRetries: int)
      requires |responses| == |queries| && forall i :: 0 <= i < |responses| ==> Ends(responses[i])
      requires forall i :: 0 <= i < |queries| ==> queries[i].startDate.Some? && queries[i].endDate.Some?
      ensures this.postman == postman && this.maxRetries == maxRetries
      ensures |searchQueryResults| == |queries|
      ensures forall i :: 0 <= i < |queries| ==> searchQueryResults[i] == SearchResult(queries[i], responses[i])
      ensures manifest == Manifest(searchQueryResults) && resultCounts == ResultCounts(searchQueryResults)
      ensures completedLog == [] && errorLog == [] && attempted == []
    {
      this.postman := postman;
      this.maxRetries := maxRetries;
      new;
      var results: seq<seq<MessageRef>>;
      ghost var requests: seq<seq<Request>>;
      results, requests := SearchQueries(queries, responses);
      searchQueryResults := results;
      manifest := Manifest(results);
      resultCounts := ResultCounts(results);
      completedLog := [];
      errorLog := [];
      attempted := [];
    }

    /** One iteration of `_search_queries()`: build the query string, search, and cut to `max_results`. */
    method SearchOne(q: SearchQuery, pages: seq<Page>) returns (found: seq<MessageRef>, ghost requests: seq<Request>)
      requires Ends(pages)
      ensures found == SearchResult(q, pages)
      ensures requests == SearchRequests(q, pages)
    {
      var totalQuery := BuildQuery(q);
      var refs: seq<MessageRef>;
      refs, requests := postman.SearchMessages(totalQuery, pages);
      SearchMessagesRequests(q, pages, requests);
      found := SlicePrefix(refs, q.maxResults);
    }

    /**
     * `_search_queries()`: one result list per query, in query order, each
     * the search's references cut to `max_results`; every request of query
     * `i` carries that query's string.
     */
    method SearchQueries(queries: seq<SearchQuery>, responses: seq<seq<Page>>)
      returns (results: seq<seq<MessageRef>>, ghost requests: seq<seq<Request>>)
      requires |responses| == |queries| && forall i :: 0 <= i < |responses| ==> Ends(responses[i])
      ensures |results| == |queries| && |requests| == |queries|
      ensures forall i :: 0 <= i < |queries| ==> results[i] == SearchResult(queries[i], responses[i])
      ensures forall i :: 0 <= i < |queries| ==> RequestsFor(queries[i], responses[i], requests[i])
    {
      ghost var allResults := seq(|queries|, k requires 0 <= k < |queries| => SearchResult(queries[k], responses[k]));
      ghost var allRequests := seq(|queries|, k requires 0 <= k < |queries| => SearchRequests(queries[k], responses[k]));
      results := [];
      requests := [];
      for i := 0 to |queries|
        invariant results == allResults[..i] && requests == allRequests[..i]
      {
        var found: seq<MessageRef>;
        ghost var reqs: seq<Request>;
        found, reqs := SearchOne(queries[i], responses[i]);
        assert allResults[..i + 1] == allResults[..i] + [found];
        assert allRequests[..i + 1] == allRequests[..i] + [reqs];
        results := results + [found];
        requests := requests + [reqs];
      }
      assert results == allResults && requests == allRequests;
      forall i | 0 <= i < |queries| ensures RequestsFor(queries[i], responses[i], requests[i]) {
        SearchRequestsFor(queries[i], responses[i]);
      }
    }

    /** The two logs and the attempts made, as one tally. */
    ghost function Logs(): Tally
      reads this
    {
      Tally(completedLog, errorLog, attempted)
    }

    /**
     * The `try`/`except` of the retry loop: attempt `t` materialises the
     * message `id`; a success appends its completed line, a failure its
     * error line and replaces the postman's session with a new one.
     */
    method Attempt(id: string, materialize: nat -> Outcome, t: nat) returns (ok: bool)
      modifies this`completedLog, this`errorLog, this`attempted, postman`service
      ensures ok == materialize(t).Materialized?
      ensures ok ==> (Logs() == Then(old(Logs()), Tally([CompletedLine(id)], [], [id]))
                      && postman.service == old(postman.service))
      ensures !ok ==> (Logs() == Then(old(Logs()), Tally([], [ErrorLine(id, materialize(t).error)], [id]))
                       && postman.service.generation == old(postman.service.generation) + 1)
    {
      var outcome := materialize(t);
      attempted := attempted + [id];
      if outcome.Materialized? {
        completedLog := completedLog + [CompletedLine(id)];
        return true;
      }
      errorLog := errorLog + [ErrorLine(id, outcome.error)];
      var session := postman.Authenticate();
      postman.service := session;
      return false;
    }

    /**
     * One iteration of `for search_result in ...`: the retry loop for the
     * message `id`, whose first attempt is the run's attempt `t0`.  The logs
     * grow by what `MessageTally` says, and each failure re-authenticates.
     */
    method CollectMessage(id: string, materialize: nat -> Outcome, t0: nat) returns (t: nat)
      modifies this`completedLog, this`errorLog, this`attempted, postman`service
      ensures var m := MessageTally(id, maxRetries, materialize, t0, 0);
        && Logs() == Then(old(Logs()), m)
        && postman.service.generation == old(postman.service.generation) + |m.errors|
        && t == t0 + |m.attempted|
    {
      ghost var goal := MessageTally(id, maxRetries, materialize, t0, 0);
      ghost var cur := NoTally;
      ghost var before := Logs();
      ThenNoTally(before);
      t := t0;
      var retries: nat := 0;
      while retries < maxRetries
        invariant Progress(id, maxRetries, materialize, t, retries, cur, goal)
        invariant t == t0 + |cur.attempted|
        invariant Logs() == Then(old(Logs()), cur)
        invariant postman.service.generation == old(postman.service.generation) + |cur.errors|
        decreases maxRetries - retries
      {
        var ok := Attempt(id, materialize, t);
        if ok {
          ProgressSuccess(id, maxRetries, materialize, t, retries, cur, goal);
          ThenAssociative(before, cur, Tally([CompletedLine(id)], [], [id]));
          cur := Then(cur, Tally([CompletedLine(id)], [], [id]));
          t := t + 1;
          break;
        }
        ProgressFailure(id, maxRetries, materialize, t, retries, cur, goal);
        ThenAssociative(before, cur, Tally([], [ErrorLine(id, materialize(t).error)], [id]));
        cur := Then(cur, Tally([], [ErrorLine(id, materialize(t).error)], [id]));
        retries := retries + 1;
        t := t + 1;
      }
      if retries >= maxRetries {
        ProgressExhausted(id, maxRetries, materialize, t, retries, cur, goal);
      }
    }

    /**
     * `for search_result in tqdm(search_query_result)`: the retry loop for
     * each message of one result list, from the run's attempt `t0`.
     */
    method CollectList(refs: seq<MessageRef>, materialize: nat -> Outcome, t0: nat) returns (t: nat)
      modifies this`completedLog, this`errorLog, this`attempted, postman`service
      ensures var L := RunFrom(Ids(refs), maxRetries, materialize, t0);
        && Logs() == Then(old(Logs()), L)
        && postman.service.generation == old(postman.service.generation) + |L.errors|
        && t == t0 + |L.attempted|
    {
      ghost var ids := Ids(refs);
      ghost var cur := NoTally;
      ghost var before := Logs();
      assert ids[..0] == [];
      ThenNoTally(before);
      t := t0;
      for j := 0 to |refs|
        invariant cur == RunFrom(ids[..j], maxRetries, materialize, t0)
        invariant t == t0 + |cur.attempted|
        invariant Logs() == Then(old(Logs()), cur)
        invariant postman.service.generation == old(postman.service.generation) + |cur.errors|
      {
        var id := refs[j].id;
        assert id == ids[j];
        RunFromSnoc(ids, j, maxRetries, materialize, t0);
        ghost var m := MessageTally(id, maxRetries, materialize, t, 0);
        ThenAssociative(before, cur, m);
        t := CollectMessage(id, materialize, t);
        cur := Then(cur, m);
      }
      assert ids[..|refs|] == ids;
    }

    /**
     * `start_mail_collection()` with `materialize(t)` the outcome of the
     * run's `t`-th `read_message` attempt: the logs grow by exactly what
     * `RunTally` says of the listed messages, nothing already in them
     * changes, and every failure re-authenticates once.
     */
    method StartMailCollection(materialize: nat -> Outcome)
      modifies this`completedLog, this`errorLog, this`attempted, postman`service
      ensures var T := RunTally(AllIds(searchQueryResults), maxRetries, materialize);
        && completedLog == old(completedLog) + T.completed
        && errorLog == old(errorLog) + T.errors
        && attempted == old(attempted) + T.attempted
        && postman.service.generation == old(postman.service.generation) + |T.errors|
    {
      var results := searchQueryResults;
      ghost var cur := NoTally;
      ghost var before := Logs();
      assert results[..0] == [];
      ThenNoTally(before);
      var t: nat := 0;
      for i := 0 to |results|
        invariant cur == RunTally(AllIds(results[..i]), maxRetries, materialize)
        invariant t == |cur.attempted|
        invariant Logs() == Then(old(Logs()), cur)
        invariant postman.service.generation == old(postman.service.generation) + |cur.errors|
      {
        ListStep(results, i, maxRetries, materialize);
        ghost var L := RunFrom(Ids(results[i]), maxRetries, materialize, t);
        ThenAssociative(before, cur, L);
        t := CollectList(results[i], materialize, t);
        cur := Then(cur, L);
      }
      assert results[..|results|] == results;
    }
  }
}
