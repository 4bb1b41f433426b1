/** Behaviours of `getInstance` on concrete queries, for any
    collaborators that split and parse those clauses the usual way. */
module Scenarios {
  import opened JavaOutcome
  import opened JavaLang
  import opened StringTokenizer
  import opened BranchOrder
  import opened QueryTypes
  import opened Compiler
  import opened Factory

  /** The two attribute paths used below, and their ranks. */
  const StateName := "State.Name.eq"
  const ExeName := "Exe.Name.eq"

  lemma ScenarioRanks()
    ensures GetOrder(StateName) == 7 && GetOrder(ExeName) == 8
    ensures SortByRank([StateName, ExeName]) == [StateName, ExeName]
  {
    assert StateName[..6] == "State.";
    assert ExeName[..4] == "Exe.";
    DomainPrefixesDisjoint(StateName);
    DomainPrefixesDisjoint(ExeName);
    assert StateName[0] == 'S' && ExeName[0] == 'E' && ExeName[1] == 'x';
    assert [StateName, ExeName][1..] == [ExeName];
    assert SortByRank([ExeName]) == [ExeName];
  }

  /** A query that does not start with `P` is not on the PID fast path. */
  lemma NotPid(q: string)
    requires |q| > 0 && q[0] != 'P'
    ensures !IsPidQuery(q)
  {
    if |q| >= 12 {
      assert q[..12][0] == q[0];
    }
  }

  /** The general path reduces to `prepare` over the accumulated clauses. */
  lemma GeneralPath(q: string, cache: Cache, c: Collaborators, pairs: seq<(string, string)>)
    requires |q| > 0 && q !in cache && !IsPidQuery(q)
    requires Traverse(Tokens(q), c.split) == Ok(pairs)
    ensures var r := Prepare(FromPairs(pairs), c);
      GetInstance(Some(q), cache, c) == (r, if r.Ok? then cache[q := r.value] else cache)
  {
  }

  /** Splitting a query of two clauses. */
  lemma TwoClauses(a: string, b: string, c: Collaborators, pa: (string, string), pb: (string, string))
    requires |a| > 0 && ',' !in a && |b| > 0 && ',' !in b
    requires c.split(a) == Ok(pa) && c.split(b) == Ok(pb)
    ensures Traverse(Tokens(a + "," + b), c.split) == Ok([pa, pb])
  {
    TwoTokens(a, b);
    TraverseAllOk([a, b], c.split, [pa, pb]);
  }

  /** Accumulating one clause. */
  lemma AccumulateOne(k: string, v: string)
    ensures FromPairs([(k, v)]) == BranchMap([k], map[k := v], [v])
  {
    assert [(k, v)][..0] == [];
    assert FromPairs([(k, v)]) == Put(EmptyBranchMap, k, v);
  }

  /** Accumulating two clauses with different paths. */
  lemma AccumulateTwo(ka: string, va: string, kb: string, vb: string)
    requires ka != kb
    ensures FromPairs([(ka, va), (kb, vb)]) == BranchMap([ka, kb], map[ka := va, kb := vb], [va, vb])
  {
    var one := [(ka, va)];
    assert [(ka, va), (kb, vb)][..1] == one;
    AccumulateOne(ka, va);
    assert FromPairs([(ka, va), (kb, vb)]) == Put(FromPairs(one), kb, vb);
  }

  /** The map of the two-clause queries below after accumulation. */
  function TwoClauseMap(ref: string): BranchMap {
    BranchMap([StateName, ExeName], map[StateName := "foo", ExeName := ref], ["foo", ref])
  }

  lemma ParseSmall()
    ensures ParseInt("1") == Some(1) && ParseInt("5") == Some(5)
  {
    assert DigitsValue("1") == 1;
    assert DigitsValue("5") == 5;
  }

  /** The text of the two-clause query: two comma-free clauses around one
      comma, starting with `S`. */
  lemma TwoClauseText(ref: string)
    requires ',' !in ref
    ensures var b := "Exe.Name.eq=" + ref;
      var q := "State.Name.eq=foo,Exe.Name.eq=" + ref;
      q == "State.Name.eq=foo" + "," + b && q[0] == 'S' && ',' !in b
  {
    var b := "Exe.Name.eq=" + ref;
    forall i | 0 <= i < |b| ensures b[i] != ',' {
      if i >= 12 { assert b[i] == ref[i - 12]; }
    }
  }

  /** `State.Name.eq=foo,Exe.Name.eq=<ref>` reaches `prepare` with the two
      clauses accumulated in textual order. */
  lemma TwoClauseQuery(ref: string, cache: Cache, c: Collaborators)
    requires |ref| > 0 && ',' !in ref
    requires "State.Name.eq=foo,Exe.Name.eq=" + ref !in cache
    requires c.split("State.Name.eq=foo") == Ok((StateName, "foo"))
    requires c.split("Exe.Name.eq=" + ref) == Ok((ExeName, ref))
    ensures var q := "State.Name.eq=foo,Exe.Name.eq=" + ref;
      var r := Prepare(TwoClauseMap(ref), c);
      GetInstance(Some(q), cache, c) == (r, if r.Ok? then cache[q := r.value] else cache)
  {
    var a, b := "State.Name.eq=foo", "Exe.Name.eq=" + ref;
    var q := "State.Name.eq=foo,Exe.Name.eq=" + ref;
    TwoClauseText(ref);
    NotPid(q);
    TwoClauses(a, b, c, (StateName, "foo"), (ExeName, ref));
    AccumulateTwo(StateName, "foo", ExeName, ref);
    GeneralPath(q, cache, c, [(StateName, "foo"), (ExeName, ref)]);
  }

  /** `prepare` on `State.Name.eq=foo` and `Exe.Name.eq=$1`. */
  lemma PreparePositional(c: Collaborators)
    requires c.finish([Append(Plain(StateName), Plain("foo")),
                       Append(Tagged(ExeName, ModClone), Tagged("foo", ModValue))]) == None
    ensures Prepare(TwoClauseMap("$1"), c)
         == Ok(Compiled([Append(Plain(StateName), Plain("foo")),
                         Append(Tagged(ExeName, ModClone), Tagged("foo", ModValue))]))
  {
    var m := TwoClauseMap("$1");
    ScenarioRanks();
    ParseSmall();
    assert "$1"[1..] == "1";
    var keys := [StateName, ExeName];
    assert m.order == keys;
    ResolvePositional(ExeName, "$1", m.branches, c.property, 1);
    assert ResolveAt(keys, 0, m, c.property) == Ok(Append(Plain(StateName), Plain("foo")));
    assert ResolveAt(keys, 1, m, c.property) == Ok(Append(Tagged(ExeName, ModClone), Tagged("foo", ModValue)));
    TraverseAllOk(keys, k requires k in m.values => ResolveOne(k, m.values[k], m.branches, c.property),
                  [Append(Plain(StateName), Plain("foo")),
                   Append(Tagged(ExeName, ModClone), Tagged("foo", ModValue))]);
    assert ResolveAll(keys, m, c.property)
        == Ok([Append(Plain(StateName), Plain("foo")),
               Append(Tagged(ExeName, ModClone), Tagged("foo", ModValue))]);
  }

  /** `prepare` on `State.Name.eq=foo` and `Exe.Name.eq=$5`. */
  lemma PrepareOutOfRange(c: Collaborators)
    ensures Prepare(TwoClauseMap("$5"), c) == Err(MalformedQuery("Variable out of range 5"))
  {
    var m := TwoClauseMap("$5");
    ScenarioRanks();
    ParseSmall();
    assert "$5"[1..] == "5";
    var keys := [StateName, ExeName];
    assert m.order == keys;
    ResolvePositional(ExeName, "$5", m.branches, c.property, 5);
    assert OutOfRange("5") == MalformedQuery("Variable out of range 5");
    assert m.values[ExeName] == "$5";
    assert ResolveAt(keys, 0, m, c.property).Ok?;
    assert ResolveAt(keys, 1, m, c.property) == Err(MalformedQuery("Variable out of range 5"));
  }

  /** `$1` in the second clause reads the first clause's value `foo`; the
      cheaper `State.` clause is emitted before the `Exe.` clause, and the
      reference tags the key as a clone and the value as a value. */
  lemma PositionalReference(cache: Cache, c: Collaborators)
    requires "State.Name.eq=foo,Exe.Name.eq=$1" !in cache
    requires c.split("State.Name.eq=foo") == Ok((StateName, "foo"))
    requires c.split("Exe.Name.eq=$1") == Ok((ExeName, "$1"))
    requires c.finish([Append(Plain(StateName), Plain("foo")),
                       Append(Tagged(ExeName, ModClone), Tagged("foo", ModValue))]) == None
    ensures GetInstance(Some("State.Name.eq=foo,Exe.Name.eq=$1"), cache, c).0
         == Ok(Compiled([Append(Plain(StateName), Plain("foo")),
                         Append(Tagged(ExeName, ModClone), Tagged("foo", ModValue))]))
  {
    assert "State.Name.eq=foo,Exe.Name.eq=$1" == "State.Name.eq=foo,Exe.Name.eq=" + "$1";
    assert "Exe.Name.eq=$1" == "Exe.Name.eq=" + "$1";
    TwoClauseQuery("$1", cache, c);
    PreparePositional(c);
  }

  /** `$5` with two clauses is out of range; nothing is cached. */
  lemma ReferenceOutOfRange(cache: Cache, c: Collaborators)
    requires "State.Name.eq=foo,Exe.Name.eq=$5" !in cache
    requires c.split("State.Name.eq=foo") == Ok((StateName, "foo"))
    requires c.split("Exe.Name.eq=$5") == Ok((ExeName, "$5"))
    ensures GetInstance(Some("State.Name.eq=foo,Exe.Name.eq=$5"), cache, c)
         == (Err(MalformedQuery("Variable out of range 5")), cache)
  {
    assert "State.Name.eq=foo,Exe.Name.eq=$5" == "State.Name.eq=foo,Exe.Name.eq=" + "$5";
    assert "Exe.Name.eq=$5" == "Exe.Name.eq=" + "$5";
    TwoClauseQuery("$5", cache, c);
    PrepareOutOfRange(c);
  }

  /** A query of one comma-free clause outside the PID domain reaches
      `prepare` with that clause alone. */
  lemma OneClauseQuery(q: string, k: string, v: string, cache: Cache, c: Collaborators)
    requires |q| > 0 && q[0] != 'P' && ',' !in q && q !in cache
    requires c.split(q) == Ok((k, v))
    ensures var r := Prepare(BranchMap([k], map[k := v], [v]), c);
      GetInstance(Some(q), cache, c) == (r, if r.Ok? then cache[q := r.value] else cache)
  {
    NotPid(q);
    SingleToken(q);
    TraverseAllOk([q], c.split, [(k, v)]);
    AccumulateOne(k, v);
    GeneralPath(q, cache, c, [(k, v)]);
  }

  /** `prepare` on the single clause `Exe.Name.eq=$NOPE_VAR_XYZ`. */
  lemma PrepareUnsetProperty(c: Collaborators)
    requires c.property("NOPE_VAR_XYZ") == None
    requires c.finish([Append(Plain(ExeName), Plain("$NOPE_VAR_XYZ"))]) == None
    ensures Prepare(BranchMap([ExeName], map[ExeName := "$NOPE_VAR_XYZ"], ["$NOPE_VAR_XYZ"]), c)
         == Ok(Compiled([Append(Plain(ExeName), Plain("$NOPE_VAR_XYZ"))]))
  {
    var m := BranchMap([ExeName], map[ExeName := "$NOPE_VAR_XYZ"], ["$NOPE_VAR_XYZ"]);
    assert SortByRank([ExeName]) == [ExeName];
    assert "$NOPE_VAR_XYZ"[1..] == "NOPE_VAR_XYZ";
    assert !IsDigit("NOPE_VAR_XYZ"[0]);
    assert ParseInt("NOPE_VAR_XYZ") == None;
    ResolveNamed(ExeName, "$NOPE_VAR_XYZ", m.branches, c.property);
    TraverseAllOk([ExeName], k requires k in m.values => ResolveOne(k, m.values[k], m.branches, c.property),
                  [Append(Plain(ExeName), Plain("$NOPE_VAR_XYZ"))]);
  }

  /** The text of the one-clause query: outside the PID domain, no comma. */
  lemma UnsetText()
    ensures "Exe.Name.eq=$NOPE_VAR_XYZ"[0] == 'E'
    ensures ',' !in "Exe.Name.eq=$NOPE_VAR_XYZ"
  {
  }

  /** An unset `$NOPE_VAR_XYZ` is kept literally, and the query is built. */
  lemma UnsetPropertyFallsBack(cache: Cache, c: Collaborators)
    requires "Exe.Name.eq=$NOPE_VAR_XYZ" !in cache
    requires c.split("Exe.Name.eq=$NOPE_VAR_XYZ") == Ok((ExeName, "$NOPE_VAR_XYZ"))
    requires c.property("NOPE_VAR_XYZ") == None
    requires c.finish([Append(Plain(ExeName), Plain("$NOPE_VAR_XYZ"))]) == None
    ensures GetInstance(Some("Exe.Name.eq=$NOPE_VAR_XYZ"), cache, c).0
         == Ok(Compiled([Append(Plain(ExeName), Plain("$NOPE_VAR_XYZ"))]))
  {
    UnsetText();
    OneClauseQuery("Exe.Name.eq=$NOPE_VAR_XYZ", ExeName, "$NOPE_VAR_XYZ", cache, c);
    PrepareUnsetProperty(c);
  }

  /** The text of the pid-file query: on the fast path, with no comma. */
  lemma PidFileText()
    ensures IsPidQuery("Pid.PidFile.eq=/var/run/app.pid")
    ensures IndexOf("Pid.PidFile.eq=/var/run/app.pid", ',') < 0
  {
    var q := "Pid.PidFile.eq=/var/run/app.pid";
    assert q[..12] == "Pid.PidFile.";
    assert ',' !in q;
  }

  /** A single `Pid.PidFile.eq` clause becomes a pid-file query and is cached. */
  lemma PidFileFastPath(cache: Cache, c: Collaborators)
    requires "Pid.PidFile.eq=/var/run/app.pid" !in cache
    requires c.split("Pid.PidFile.eq=/var/run/app.pid") == Ok(("Pid.PidFile.eq", "/var/run/app.pid"))
    requires c.parseBranch("Pid.PidFile.eq") == Ok(BranchName("PidFile", "eq"))
    ensures GetInstance(Some("Pid.PidFile.eq=/var/run/app.pid"), cache, c)
         == (Ok(PidFileQuery("/var/run/app.pid")),
             cache["Pid.PidFile.eq=/var/run/app.pid" := PidFileQuery("/var/run/app.pid")])
  {
    var q := "Pid.PidFile.eq=/var/run/app.pid";
    PidFileText();
    assert GetPidInstance(q, c) == Ok(PidFileQuery("/var/run/app.pid"));
    PidPathBypassesCompiler(q, cache, c, c.property, c.finish);
  }

  /** Two PID clauses are refused because of the comma. */
  lemma PidFileTwoClauses(cache: Cache, c: Collaborators)
    requires "Pid.PidFile.eq=a,Pid.PidFile.eq=b" !in cache
    ensures GetInstance(Some("Pid.PidFile.eq=a,Pid.PidFile.eq=b"), cache, c)
         == (Err(MalformedQuery("Invalid Pid query")), cache)
  {
    var q := "Pid.PidFile.eq=a,Pid.PidFile.eq=b";
    assert q[..12] == "Pid.PidFile.";
    assert q[16] == ',';
    PidQueryWithComma(q, cache, c);
  }
}
