/** The values the query factory passes around: its two checked exceptions
    (plus the unchecked ones the code can let escape), the builder's recorded
    instructions, the compiled query variants, the clause accumulator, and the
    collaborators whose code is not part of this model. */
module QueryTypes {
  import opened JavaOutcome

  /** What a call can throw instead of returning. */
  datatype Error =
    | MalformedQuery(message: string)    // MalformedQueryException
    | QueryLoad(message: string)         // QueryLoadException
    | IllegalArgument(message: string)   // from System.getProperty("")
    | StringIndexOutOfBounds             // from charAt(0) on an empty value

  /** `ProcessQueryBuilder.MOD_VALUE` and `ProcessQueryBuilder.MOD_CLONE`. */
  datatype Modifier = ModValue | ModClone

  /** A string as handed to the builder: as written, or passed through
      `addModifier`. How a modifier is spelled inside the string belongs to
      the builder; the model keeps the tag beside the text. */
  datatype Term = Plain(text: string) | Tagged(text: string, modifier: Modifier)

  /** One `builder.append(key, value)`. */
  datatype Append = Append(key: Term, value: Term)

  /** The `ProcessQuery` objects the factory hands out. */
  datatype Query =
    | Compiled(program: seq<Append>)   // built by ProcessQueryBuilder
    | PidFileQuery(path: string)       // PidFileQuery
    | ServiceQuery(name: string)       // WindowsServiceQuery

  /** What `new QueryBranch(name)` parses out of an attribute path such as
      `Pid.PidFile.eq`: the attribute (`PidFile`) and the operator (`eq`). */
  datatype BranchName = BranchName(attr: string, op: string)

  /** The collaborators whose code is not part of this model.
      - `split`: `QueryBranch.split`, one clause into (attribute path, value),
        or the exception it throws.
      - `parseBranch`: `new QueryBranch(path)`, or the exception it throws.
      - `property`: `System.getProperty(name)`; `None` when not set.
      - `finish`: `builder.finish()` followed by `builder.load()` over the
        recorded appends; `Some(e)` when either throws `e`. */
  datatype Collaborators = Collaborators(
    split: string -> Result<(string, string), Error>,
    parseBranch: string -> Result<BranchName, Error>,
    property: string -> Option<string>,
    finish: seq<Append> -> Option<Error>)

  /** `QueryBranchMap`: the attribute path to value map, its keys in the
      order `keySet()` yields them, and every value ever put, in put order. */
  datatype BranchMap = BranchMap(order: seq<string>, values: map<string, string>, branches: seq<string>) {

    /** `order` lists each key of `values` exactly once. */
    predicate Valid() {
      && (forall i, j :: 0 <= i < j < |order| ==> order[i] != order[j])
      && (forall k :: k in values ==> k in order)
      && (forall k :: k in order ==> k in values)
    }
  }

  const EmptyBranchMap := BranchMap([], map[], [])

  /** `QueryBranchMap.put`: the key is mapped to the value (overwriting any
      earlier value) and the value is recorded in `branches` either way. */
  function Put(m: BranchMap, key: string, value: string): (r: BranchMap)
    requires m.Valid()
    ensures r.Valid()
    ensures r.values == m.values[key := value]
    ensures r.branches == m.branches + [value]
    ensures key in m.values ==> r.order == m.order
  {
    var order := if key in m.values then m.order else m.order + [key];
    BranchMap(order, m.values[key := value], m.branches + [value])
  }

  /** The values of `pairs`, in order. */
  function ValuesOf(pairs: seq<(string, string)>): (r: seq<string>)
    ensures |r| == |pairs|
    ensures forall i :: 0 <= i < |pairs| ==> r[i] == pairs[i].1
  {
    seq(|pairs|, i requires 0 <= i < |pairs| => pairs[i].1)
  }

  /** The accumulator after putting every pair in turn. */
  function FromPairs(pairs: seq<(string, string)>): (r: BranchMap)
    ensures r.Valid()
    ensures r.branches == ValuesOf(pairs)
    decreases |pairs|
  {
    if |pairs| == 0 then EmptyBranchMap
    else
      var last := pairs[|pairs| - 1];
      var m := FromPairs(pairs[..|pairs| - 1]);
      assert ValuesOf(pairs) == ValuesOf(pairs[..|pairs| - 1]) + [last.1];
      Put(m, last.0, last.1)
  }

  /** Keys and values of the accumulator: a path is a key exactly when some
      clause names it, and its value is the one from the last such clause. */
  lemma {:induction false} FromPairsLastWriteWins(pairs: seq<(string, string)>, i: nat)
    requires i < |pairs|
    requires forall j :: i < j < |pairs| ==> pairs[j].0 != pairs[i].0
    ensures pairs[i].0 in FromPairs(pairs).values
    ensures FromPairs(pairs).values[pairs[i].0] == pairs[i].1
    decreases |pairs|
  {
    if i < |pairs| - 1 {
      FromPairsLastWriteWins(pairs[..|pairs| - 1], i);
    }
  }

  /** Every key of the accumulator was named by some clause. */
  lemma {:induction false} FromPairsKeysNamed(pairs: seq<(string, string)>, k: string)
    requires k in FromPairs(pairs).values
    ensures exists i :: 0 <= i < |pairs| && pairs[i].0 == k
    decreases |pairs|
  {
    var n := |pairs| - 1;
    if pairs[n].0 != k {
      FromPairsKeysNamed(pairs[..n], k);
      var i :| 0 <= i < n && pairs[..n][i].0 == k;
      assert pairs[i].0 == k;
    }
  }
}
