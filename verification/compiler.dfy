/** `ProcessQueryFactory.prepare`: the clause keys are sorted by cost, each
    clause's value is resolved (a `$n` reference to the n-th clause in
    textual order, or a `$name` system property), one append per clause is
    recorded on a fresh builder, and the builder is finished and loaded. */
module Compiler {
  import opened JavaOutcome
  import opened JavaLang
  import opened StableSort
  import opened BranchOrder
  import opened QueryTypes

  /** The attribute path an append was recorded for, without its modifier. */
  function BaseKey(a: Append): string {
    a.key.text
  }

  /** The attribute paths of a recorded program, in emission order. */
  function BaseKeys(p: seq<Append>): (r: seq<string>)
    ensures |r| == |p|
    ensures forall i :: 0 <= i < |p| ==> r[i] == p[i].key.text
  {
    seq(|p|, i requires 0 <= i < |p| => p[i].key.text)
  }

  /** The error thrown for a positional reference outside the clause list. */
  function OutOfRange(name: string): Error {
    MalformedQuery("Variable out of range " + name)
  }

  /** One iteration of the loop in `prepare`: what is appended for `key`,
      whose value is `value`, given the clause values in textual order. */
  function ResolveOne(key: string, value: string, branches: seq<string>,
                      property: string -> Option<string>): (r: Result<Append, Error>)
    // the attribute path is kept; only a positional reference tags it
    ensures r.Ok? ==> BaseKey(r.value) == key
    // a value that is not a variable passes through untouched
    ensures |value| > 0 && value[0] != '$' ==> r == Ok(Append(Plain(key), Plain(value)))
    // charAt(0) of an empty value
    ensures |value| == 0 ==> r == Err(StringIndexOutOfBounds)
    // a tagged key always travels with a tagged value taken from the clause list
    ensures r.Ok? && r.value.key.Tagged? ==>
      && r.value.key.modifier == ModClone
      && r.value.value.Tagged? && r.value.value.modifier == ModValue
      && r.value.value.text in branches
    // the only MalformedQuery this step throws is the out-of-range reference
    ensures r.Err? && r.error.MalformedQuery? ==>
      |value| > 0 && value[0] == '$' && ParseInt(value[1..]).Some? && r.error == OutOfRange(value[1..])
  {
    if |value| == 0 then Err(StringIndexOutOfBounds)
    else if value[0] != '$' then Ok(Append(Plain(key), Plain(value)))
    else
      var name := value[1..];
      match ParseInt(name)
      case Some(n) =>
        var ix := Decrement32(n);
        if ix < 0 || ix >= |branches| then Err(OutOfRange(name))
        else Ok(Append(Tagged(key, ModClone), Tagged(branches[ix], ModValue)))
      case None =>
        if |name| == 0 then Err(IllegalArgument("key can't be empty"))
        else Ok(Append(Plain(key), Plain(property(name).OrDefault(value))))
  }

  /** A reference `$n` reads the n-th clause value in textual order (counting
      from 1), and is out of range exactly when n is below 1 or past the last
      clause. A Java list holds at most `Integer.MAX_VALUE` elements, which is
      what keeps `ix--` wrapping at `Integer.MIN_VALUE` from mattering. */
  lemma ResolvePositional(key: string, value: string, branches: seq<string>,
                          property: string -> Option<string>, n: int)
    requires |value| > 0 && value[0] == '$' && ParseInt(value[1..]) == Some(n)
    requires |branches| <= INT_MAX
    ensures 1 <= n <= |branches| ==>
      ResolveOne(key, value, branches, property)
        == Ok(Append(Tagged(key, ModClone), Tagged(branches[n - 1], ModValue)))
    ensures !(1 <= n <= |branches|) ==>
      ResolveOne(key, value, branches, property) == Err(OutOfRange(value[1..]))
  {
  }

  /** A `$name` that is not an integer is replaced by the system property
      `name` when it is set and is otherwise kept as written; it never throws
      `MalformedQueryException` and never tags the clause. */
  lemma ResolveNamed(key: string, value: string, branches: seq<string>,
                     property: string -> Option<string>)
    requires |value| > 1 && value[0] == '$' && ParseInt(value[1..]).None?
    ensures property(value[1..]).Some? ==>
      ResolveOne(key, value, branches, property) == Ok(Append(Plain(key), Plain(property(value[1..]).value)))
    ensures property(value[1..]).None? ==>
      ResolveOne(key, value, branches, property) == Ok(Append(Plain(key), Plain(value)))
  {
  }

  /** A lone `$`: `Integer.parseInt("")` fails, and `System.getProperty("")`
      rejects the empty key. */
  lemma ResolveLoneDollar(key: string, branches: seq<string>, property: string -> Option<string>)
    ensures ResolveOne(key, "$", branches, property) == Err(IllegalArgument("key can't be empty"))
  {
    assert "$"[1..] == "";
    ParseIntRejectsEmptyAndLoneSign();
  }

  /** The step for the i-th sorted key. */
  function ResolveAt(keys: seq<string>, i: int, m: BranchMap,
                     property: string -> Option<string>): Result<Append, Error>
    requires 0 <= i < |keys|
    requires forall k :: k in keys ==> k in m.values
  {
    ResolveOne(keys[i], m.values[keys[i]], m.branches, property)
  }

  /** The loop of `prepare` over the sorted keys: one append per key in that
      order, stopping at the first key whose step throws. */
  function ResolveAll(keys: seq<string>, m: BranchMap,
                      property: string -> Option<string>): (r: Result<seq<Append>, Error>)
    requires forall k :: k in keys ==> k in m.values
    ensures r.Ok? <==> forall i :: 0 <= i < |keys| ==> ResolveAt(keys, i, m, property).Ok?
    ensures r.Ok? ==> |r.value| == |keys|
    ensures r.Ok? ==> forall i :: 0 <= i < |keys| ==> ResolveAt(keys, i, m, property) == Ok(r.value[i])
    ensures r.Err? ==>
      exists i :: 0 <= i < |keys|
        && (forall j :: 0 <= j < i ==> ResolveAt(keys, j, m, property).Ok?)
        && ResolveAt(keys, i, m, property) == Err(r.error)
  {
    var step := k requires k in m.values => ResolveOne(k, m.values[k], m.branches, property);
    assert forall i :: 0 <= i < |keys| ==> step(keys[i]) == ResolveAt(keys, i, m, property);
    Traverse(keys, step)
  }

  /** Every cost-sorted key has a value in the map. */
  lemma SortedKeysInMap(m: BranchMap)
    requires m.Valid()
    ensures forall k :: k in SortByRank(m.order) ==> k in m.values
  {
    var keys := SortByRank(m.order);
    forall k | k in keys ensures k in m.values {
      assert k in multiset(keys);
    }
  }

  /** `prepare(map)`: sort the keys by cost, resolve and append each clause,
      then finish and load the builder. On success the program holds one
      append per key of the map, in cost-sorted order, and the i-th append is
      what resolving the i-th sorted key against its own value gives. */
  function Prepare(m: BranchMap, c: Collaborators): (r: Result<Query, Error>)
    requires m.Valid()
    ensures r.Ok? ==> r.value.Compiled?
    ensures r.Ok? ==> BaseKeys(r.value.program) == SortByRank(m.order)
    ensures r.Ok? ==> var keys := SortByRank(m.order);
      && r.value.Compiled?
      && |r.value.program| == |keys|
      && (forall k :: k in keys ==> k in m.values)
      && forall i :: 0 <= i < |keys| ==> ResolveAt(keys, i, m, c.property) == Ok(r.value.program[i])
    ensures r.Ok? ==> c.finish(r.value.program) == None
  {
    var keys := SortByRank(m.order);
    SortedKeysInMap(m);
    var resolved := ResolveAll(keys, m, c.property);
    if resolved.Err? then Err(resolved.error)
    else
      var program := resolved.value;
      match c.finish(program)
      case Some(e) => Err(e)
      case None => Ok(Compiled(program))
  }

  /** What a successful `prepare` emits: every key of the map exactly once,
      cheap clauses before expensive ones, clauses of equal cost in the order
      the map listed them (what each append holds is stated by `Prepare`). */
  lemma PrepareEmitsByCost(m: BranchMap, c: Collaborators)
    requires m.Valid()
    requires Prepare(m, c).Ok?
    ensures var keys := BaseKeys(Prepare(m, c).value.program);
      && SortedBy(keys, GetOrder)
      && multiset(keys) == multiset(m.order)
      && (forall k :: k in keys <==> k in m.values)
      && (forall k :: FilterRank(keys, GetOrder, k) == FilterRank(m.order, GetOrder, k))
  {
    var keys := BaseKeys(Prepare(m, c).value.program);
    forall k ensures k in keys <==> k in m.values {
      assert k in keys <==> k in multiset(keys);
      assert k in m.order <==> k in multiset(m.order);
    }
  }

  /** `prepare` throws exactly when some clause's step throws or when
      finishing the builder throws. The exception that escapes is the first
      failing clause's in cost order (see `ResolveAll`), and otherwise the
      one `finish` threw. */
  lemma PrepareFailure(m: BranchMap, c: Collaborators)
    requires m.Valid()
    ensures var keys := SortByRank(m.order);
      (forall k :: k in keys ==> k in m.values) &&
      (Prepare(m, c).Err? <==>
        (exists i :: 0 <= i < |keys| && ResolveAt(keys, i, m, c.property).Err?)
        || c.finish(ResolveAll(keys, m, c.property).value).Some?) &&
      (Prepare(m, c).Err? ==>
        var resolved := ResolveAll(keys, m, c.property);
        || (resolved.Err? && Prepare(m, c).error == resolved.error)
        || (resolved.Ok? && c.finish(resolved.value) == Some(Prepare(m, c).error)))
  {
    SortedKeysInMap(m);
  }
}
