/** `ProcessQueryFactory.getInstance` and its PID fast path: validate the
    query string, consult the cache, build a PidFile or Service query for a
    single `Pid.PidFile.`/`Pid.Service.` clause, otherwise tokenise on commas,
    split and accumulate the clauses and `prepare` them; only a query that was
    built is cached. */
module Factory {
  import opened JavaOutcome
  import opened JavaLang
  import opened StringTokenizer
  import opened BranchOrder
  import opened QueryTypes
  import opened Compiler

  /** The process-wide cache, from query string to the query built for it. */
  type Cache = map<string, Query>

  /** Whether `getInstance` takes the PID fast path for `query`. */
  predicate IsPidQuery(query: string) {
    StartsWith(query, "Pid.PidFile.") || StartsWith(query, "Pid.Service.")
  }

  /** `getPidInstance(query)`: a single-clause PID lookup by pid file or by
      service name. */
  function GetPidInstance(query: string, c: Collaborators): (r: Result<Query, Error>)
    ensures IndexOf(query, ',') > 0 ==> r == Err(MalformedQuery("Invalid Pid query"))
    ensures r.Ok? ==> r.value.PidFileQuery? || r.value.ServiceQuery?
    ensures r.Ok? ==>
      && c.split(query).Ok?
      && c.parseBranch(c.split(query).value.0).Ok?
      && var val := c.split(query).value.1;
         var branch := c.parseBranch(c.split(query).value.0).value;
         && branch.op == "eq"
         && (r.value == PidFileQuery(val) <==> branch.attr == "PidFile")
         && (r.value == ServiceQuery(val) <==> branch.attr == "Service")
    // a comma-free `eq` clause on `PidFile` or `Service` always succeeds
    ensures IndexOf(query, ',') <= 0 && c.split(query).Ok? && c.parseBranch(c.split(query).value.0).Ok? ==>
      var val := c.split(query).value.1;
      var branch := c.parseBranch(c.split(query).value.0).value;
      && (branch.op == "eq" && branch.attr == "PidFile" ==> r == Ok(PidFileQuery(val)))
      && (branch.op == "eq" && branch.attr == "Service" ==> r == Ok(ServiceQuery(val)))
    // an exception from splitting or parsing the clause escapes unchanged
    ensures IndexOf(query, ',') <= 0 && c.split(query).Err? ==> r == Err(c.split(query).error)
    ensures IndexOf(query, ',') <= 0 && c.split(query).Ok? && c.parseBranch(c.split(query).value.0).Err? ==>
      r == Err(c.parseBranch(c.split(query).value.0).error)
  {
    if IndexOf(query, ',') > 0 then Err(MalformedQuery("Invalid Pid query"))
    else
      var vals :- c.split(query);
      var branch :- c.parseBranch(vals.0);
      var val := vals.1;
      if branch.op != "eq" then Err(MalformedQuery("Invalid Pid operator"))
      else if branch.attr == "PidFile" then Ok(PidFileQuery(val))
      else if branch.attr == "Service" then Ok(ServiceQuery(val))
      else Err(MalformedQuery("Unsupported method: " + branch.attr))
  }

  /** The errors of the PID fast path, once the comma test has passed and the
      clause has been split and parsed: a wrong operator first, then an
      attribute other than `PidFile` or `Service`. */
  lemma PidInstanceErrors(query: string, c: Collaborators)
    requires IndexOf(query, ',') <= 0
    requires c.split(query).Ok? && c.parseBranch(c.split(query).value.0).Ok?
    ensures var branch := c.parseBranch(c.split(query).value.0).value;
      && (branch.op != "eq" ==>
            GetPidInstance(query, c) == Err(MalformedQuery("Invalid Pid operator")))
      && (branch.op == "eq" && branch.attr != "PidFile" && branch.attr != "Service" ==>
            GetPidInstance(query, c) == Err(MalformedQuery("Unsupported method: " + branch.attr)))
  {
  }

  /** `indexOf(",") > 0` misses a comma only at position 0, which a query on
      the fast path cannot have: there the test rejects every comma. */
  lemma PidCommaTest(query: string)
    requires IsPidQuery(query)
    ensures IndexOf(query, ',') > 0 <==> ',' in query
  {
    assert query[..4] == "Pid." by {
      if StartsWith(query, "Pid.PidFile.") {
        assert query[..4] == query[..12][..4];
      } else {
        assert query[..4] == query[..12][..4];
      }
    }
    assert query[0] == query[..4][0] == 'P';
  }

  /** The general path: tokenise on commas, split each token, accumulate the
      clauses in textual order and `prepare` them. */
  function CompileClauses(query: string, c: Collaborators): (r: Result<Query, Error>)
    ensures r.Ok? ==> r.value.Compiled?
    ensures r.Ok? ==> Traverse(Tokens(query), c.split).Ok?
  {
    var pairs :- Traverse(Tokens(query), c.split);
    Prepare(FromPairs(pairs), c)
  }

  /** `getInstance(query)`; `None` stands for a null reference. Returns the
      outcome and the cache afterwards. */
  function GetInstance(query: Option<string>, cache: Cache, c: Collaborators): (out: (Result<Query, Error>, Cache))
    ensures query.None? ==> out == (Err(MalformedQuery("null query")), cache)
    ensures query == Some("") ==> out == (Err(MalformedQuery("empty query")), cache)
    // an entry, once cached, is never replaced or dropped
    ensures forall k :: k in cache ==> k in out.1 && out.1[k] == cache[k]
    // a failure leaves the cache as it was
    ensures out.0.Err? ==> out.1 == cache
    // a success is cached under exactly the query string, and nothing else changes
    ensures out.0.Ok? ==> query.Some? && out.1 == cache[query.value := out.0.value]
  {
    if query.None? then (Err(MalformedQuery("null query")), cache)
    else
      var q := query.value;
      if |q| == 0 then (Err(MalformedQuery("empty query")), cache)
      else if q in cache then (Ok(cache[q]), cache)
      else
        var r := if IsPidQuery(q) then GetPidInstance(q, c) else CompileClauses(q, c);
        match r
        case Ok(pq) => (r, cache[q := pq])
        case Err(_) => (r, cache)
  }

  /** A cached query is returned as it is, with no collaborator consulted. */
  lemma GetInstanceCacheHit(q: string, cache: Cache, c: Collaborators)
    requires |q| > 0 && q in cache
    ensures GetInstance(Some(q), cache, c) == (Ok(cache[q]), cache)
  {
  }

  /** Asking twice for a query that was built returns the same query the
      second time, without touching the cache, whatever the collaborators
      would now do: the pipeline is not entered again. */
  lemma GetInstanceIdempotent(q: string, cache: Cache, c: Collaborators, later: Collaborators)
    ensures var (r, cache') := GetInstance(Some(q), cache, c);
      r.Ok? ==> GetInstance(Some(q), cache', later) == (r, cache')
  {
  }

  /** On the general path, a clause that `QueryBranch.split` rejects makes
      `getInstance` throw that exception (the first such clause's), and
      nothing is cached. */
  lemma GeneralPathSplitFails(q: string, cache: Cache, c: Collaborators)
    requires |q| > 0 && q !in cache && !IsPidQuery(q)
    requires Traverse(Tokens(q), c.split).Err?
    ensures GetInstance(Some(q), cache, c) == (Err(Traverse(Tokens(q), c.split).error), cache)
  {
  }

  /** A query on the PID fast path is decided by `getPidInstance` alone: it
      never reaches system properties, `prepare` or the builder. */
  lemma PidPathBypassesCompiler(q: string, cache: Cache, c: Collaborators,
                                property: string -> Option<string>,
                                finish: seq<Append> -> Option<Error>)
    requires IsPidQuery(q) && q !in cache
    ensures GetInstance(Some(q), cache, c).0 == GetPidInstance(q, c)
    ensures GetInstance(Some(q), cache, c)
         == GetInstance(Some(q), cache, c.(property := property, finish := finish))
  {
  }

  /** A PID query with more than one clause is refused, and nothing is cached. */
  lemma PidQueryWithComma(q: string, cache: Cache, c: Collaborators)
    requires IsPidQuery(q) && q !in cache && ',' in q
    ensures GetInstance(Some(q), cache, c) == (Err(MalformedQuery("Invalid Pid query")), cache)
  {
    PidCommaTest(q);
  }

  /** On the general path the accumulator records one value per non-empty
      comma-separated clause, in textual order, which is the list positional
      references index. */
  lemma GeneralPathAccumulates(q: string, cache: Cache, c: Collaborators)
    requires |q| > 0 && q !in cache && !IsPidQuery(q)
    requires Traverse(Tokens(q), c.split).Ok?
    ensures var pairs := Traverse(Tokens(q), c.split).value;
      && |pairs| == |NonEmpty(Segments(q))|
      && (forall i :: 0 <= i < |pairs| ==> c.split(NonEmpty(Segments(q))[i]) == Ok(pairs[i]))
      && FromPairs(pairs).branches == ValuesOf(pairs)
      && GetInstance(Some(q), cache, c).0 == Prepare(FromPairs(pairs), c)
  {
    TokensAreNonEmptySegments(q);
  }
}
