/** The cost model that orders a query's clauses: each attribute path gets a
    rank from its domain prefix, `Compare` turns ranks into a comparator, and
    the clause keys are sorted stably by rank so the cheap clauses are evaluated first. */
module BranchOrder {
  import opened JavaLang
  import opened StableSort

  /** Each domain prefix differs from every other in its first or second
      character, so a path starts with at most one of them. */
  lemma DomainPrefixesDisjoint(path: string)
    ensures StartsWith(path, "Port.") ==> path[0] == 'P'
    ensures StartsWith(path, "Env.") ==> path[0] == 'E' && path[1] == 'n'
    ensures StartsWith(path, "Args.") ==> path[0] == 'A'
    ensures StartsWith(path, "Exe.") ==> path[0] == 'E' && path[1] == 'x'
    ensures StartsWith(path, "State.") ==> path[0] == 'S'
  {
    if StartsWith(path, "Port.") { assert path[..5][0] == path[0]; }
    if StartsWith(path, "Env.") { assert path[..4][0] == path[0] && path[..4][1] == path[1]; }
    if StartsWith(path, "Args.") { assert path[..5][0] == path[0]; }
    if StartsWith(path, "Exe.") { assert path[..4][0] == path[0] && path[..4][1] == path[1]; }
    if StartsWith(path, "State.") { assert path[..6][0] == path[0]; }
  }

  /** `getOrder`: the evaluation cost of a clause, from its attribute path. */
  function GetOrder(path: string): (r: int)
    ensures r in {1, 7, 8, 9, 10, 11}
  {
    if StartsWith(path, "Port.") then 11
    else if StartsWith(path, "Env.") then 10
    else if StartsWith(path, "Args.") then 9
    else if StartsWith(path, "Exe.") then 8
    else if StartsWith(path, "State.") then 7
    else 1
  }

  /** Each rank belongs to exactly one domain: a path has rank 11 exactly when
      it is a `Port.` path, 10 exactly for `Env.`, and so on down to 7 for
      `State.`; every other path has rank 1. */
  lemma GetOrderByDomain(path: string)
    ensures GetOrder(path) == 11 <==> StartsWith(path, "Port.")
    ensures GetOrder(path) == 10 <==> StartsWith(path, "Env.")
    ensures GetOrder(path) == 9 <==> StartsWith(path, "Args.")
    ensures GetOrder(path) == 8 <==> StartsWith(path, "Exe.")
    ensures GetOrder(path) == 7 <==> StartsWith(path, "State.")
    ensures GetOrder(path) == 1 <==>
      !(StartsWith(path, "Port.") || StartsWith(path, "Env.") || StartsWith(path, "Args.")
        || StartsWith(path, "Exe.") || StartsWith(path, "State."))
  {
    DomainPrefixesDisjoint(path);
  }

  /** `compare`: the comparator handed to `Arrays.sort`. */
  function Compare(a: string, b: string): int {
    GetOrder(a) - GetOrder(b)
  }

  /** `Compare` is a consistent comparator: its sign follows the ranks, it is
      antisymmetric, zero on equal arguments and transitive. */
  lemma CompareIsComparator(a: string, b: string, c: string)
    ensures Compare(a, b) < 0 <==> GetOrder(a) < GetOrder(b)
    ensures Compare(a, b) == 0 <==> GetOrder(a) == GetOrder(b)
    ensures Compare(a, b) == -Compare(b, a)
    ensures Compare(a, a) == 0
    ensures Compare(a, b) <= 0 && Compare(b, c) <= 0 ==> Compare(a, c) <= 0
    ensures -10 <= Compare(a, b) <= 10
  {
  }

  /** `Arrays.sort(keys, this)`: the clause keys in a stable order by
      `getOrder`, so cheap clauses come first and keys of equal cost keep the
      order they were listed in. */
  function SortByRank(keys: seq<string>): (r: seq<string>)
    ensures multiset(r) == multiset(keys)
    ensures SortedBy(r, GetOrder)
    ensures forall k :: FilterRank(r, GetOrder, k) == FilterRank(keys, GetOrder, k)
  {
    var r := SortBy(keys, GetOrder);
    forall k ensures FilterRank(r, GetOrder, k) == FilterRank(keys, GetOrder, k) {
      SortIsStable(keys, GetOrder, k);
    }
    r
  }

  /** Java's `Arrays.sort` on objects is a stable sort; any stable sort by
      `compare` yields exactly `SortByRank`. */
  lemma JavaSortIsSortByRank(keys: seq<string>, sorted: seq<string>)
    requires forall i :: 0 < i < |sorted| ==> Compare(sorted[i - 1], sorted[i]) <= 0
    requires forall k :: FilterRank(sorted, GetOrder, k) == FilterRank(keys, GetOrder, k)
    ensures sorted == SortByRank(keys)
  {
    AnyStableSortIsSortBy(keys, sorted, GetOrder);
  }
}
