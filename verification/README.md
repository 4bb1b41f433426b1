# PTQL query compilation in SIGAR, modelled in Dafny

SIGAR's Process Table Query Language (PTQL) selects operating-system
processes with a query such as `State.Name.eq=java,Args.-1.eq=Foo`.
`ProcessQueryFactory` turns such a string into a `ProcessQuery`. This project
models that compilation step and proves properties of the model:

- **Cost ranking** (`getOrder`, `compare`). Each clause key gets a rank from
  its domain prefix: `Port.` 11, `Env.` 10, `Args.` 9, `Exe.` 8, `State.` 7,
  anything else 1. The keys are then put through Java's stable
  `Arrays.sort`, so cheap clauses are evaluated first.
- **`prepare`**. For each sorted key the factory resolves the clause value
  and appends one `(key, value)` pair to a fresh `ProcessQueryBuilder`.
  A value `$n` is a 1-based reference into the clause values in textual
  order (`branches`). It is range-checked. On success the value is tagged
  `MOD_VALUE` and the key is tagged `MOD_CLONE`. A value `$name` that is not
  an integer is replaced by the Java system property `name` when that
  property is set, and is kept as written otherwise. Once every clause is
  appended, the builder is finished and loaded.
- **PID fast path** (`getPidInstance`). A single `Pid.PidFile.` or
  `Pid.Service.` clause becomes a pid-file or service query.
- **`getInstance`**. It rejects null and empty input, consults the cache,
  and takes the PID path or the general path. The general path tokenises on
  commas with `StringTokenizer`, splits each clause, accumulates the clauses
  in a `QueryBranchMap`, and calls `prepare`. Only a query that was built
  is cached.

Modules, leaf first:

| file | module | models |
|---|---|---|
| java_outcome.dfy | `JavaOutcome` | `Option` (null) and `Result` (a call that may throw); `Traverse`, a loop that stops at the first exception |
| java_lang.dfy | `JavaLang` | `String.startsWith`, `String.indexOf`, the 32-bit decrement `ix--`, `Integer.parseInt` |
| string_tokenizer.dfy | `StringTokenizer` | `new StringTokenizer(query, ",")` |
| stable_sort.dfy | `StableSort` | a stable insertion sort by an integer rank, and why it equals every other stable sort |
| branch_order.dfy | `BranchOrder` | `getOrder`, `compare`, `Arrays.sort(keys, this)` |
| query_types.dfy | `QueryTypes` | the exceptions, builder appends, query variants, `QueryBranchMap`, and the collaborators whose code is not part of this model |
| compiler.dfy | `Compiler` | `prepare` |
| factory.dfy | `Factory` | `getPidInstance`, `getInstance` |
| scenarios.dfy | `Scenarios` | behaviours of `getInstance` on concrete queries |

Collaborators whose code is not part of this model are parameters, collected
in `QueryTypes.Collaborators`:

- `split` stands for `QueryBranch.split`.
- `parseBranch` stands for `new QueryBranch(path)`, which yields `attr` and `op`.
- `property` stands for `System.getProperty(name)`.
- `finish` stands for `ProcessQueryBuilder.finish()` and `load()`. It may
  throw, for example `QueryLoadException`.

Every property is proved for all collaborators. The one exception is the
`Scenarios` module: each of its lemmas states which answers it needs from
`split`, `parseBranch`, `property` and `finish`.

`addModifier` is modelled by a tag (`Term.Tagged`) kept next to the text,
because the builder's string encoding of a modifier is not part of this
model. The builder is the recorded sequence of appends. When finishing
succeeds, the query is `Compiled(appends)`.

The code differs from a casual reading of the language in these places, and
the model follows the code:

- `$name` reads a Java **system property** through `System.getProperty`,
  not an environment variable.
- A lone `$` is not harmless. `Integer.parseInt("")` fails, and then
  `System.getProperty("", "$")` throws `IllegalArgumentException`
  ("key can't be empty"). So the named-variable branch can fail
  (`Compiler.ResolveLoneDollar`). No other `$name` fails.
- An empty clause value makes `val.charAt(0)` throw
  `StringIndexOutOfBoundsException`. This can only happen if `QueryBranch.split`
  returns an empty value.
- The PID comma test is `query.indexOf(",") > 0`, so it misses a comma at
  position 0. A query on the fast path starts with `Pid.`, so there the test
  catches every comma (`Factory.PidCommaTest`).
- `ix--` wraps at `Integer.MIN_VALUE`. The model computes it with 32-bit
  wrap-around (`JavaLang.Decrement32`). It proves that this gives the plain
  "1 ≤ n ≤ number of clauses" test, because a Java list has at most
  `Integer.MAX_VALUE` elements (`Compiler.ResolvePositional`).
- `QueryBranchMap.put` overwrites the key's value but always appends to
  `branches`. So a `$n` can reach a clause value whose key was overwritten.
  The model keeps this behaviour.

## Model

| member | source | states |
|---|---|---|
| `JavaLang.IndexOf` | bindings/java/src/org/hyperic/sigar/ptql/ProcessQueryFactory.java:119 | `indexOf` is -1 exactly when the character is absent; otherwise it is the position of the first occurrence |
| `JavaLang.Decrement32` | bindings/java/src/org/hyperic/sigar/ptql/ProcessQueryFactory.java:90 | `ix--` on an `int` stays in the 32-bit range and equals `n - 1` modulo 2^32 |
| `JavaLang.ParseInt` | bindings/java/src/org/hyperic/sigar/ptql/ProcessQueryFactory.java:88 | `Integer.parseInt` succeeds exactly when the text is an optional sign followed by at least one digit and its decimal value fits in 32 bits; the result is that value, negative only after a `-` |
| `JavaLang.ParseIntRoundTrip` | bindings/java/src/org/hyperic/sigar/ptql/ProcessQueryFactory.java:88 | every `int` written in decimal parses back to itself |
| `JavaLang.ParseIntRejectsEmptyAndLoneSign` | bindings/java/src/org/hyperic/sigar/ptql/ProcessQueryFactory.java:85-88 | the empty text after a lone `$`, and a lone sign, are not integers |
| `JavaLang.ParseIntRejectsNonDigit` | bindings/java/src/org/hyperic/sigar/ptql/ProcessQueryFactory.java:85-88 | one non-digit character anywhere, other than a leading sign, makes the text a non-integer, so such a `$…` value is a property name and not a reference |
| `StringTokenizer.Tokens` | bindings/java/src/org/hyperic/sigar/ptql/ProcessQueryFactory.java:181-184 | every token the tokenizer hands out is non-empty and free of commas |
| `StringTokenizer.Segments` | bindings/java/src/org/hyperic/sigar/ptql/ProcessQueryFactory.java:181 | splitting at every comma gives at least one piece, and no piece contains a comma |
| `StringTokenizer.JoinSegments` | bindings/java/src/org/hyperic/sigar/ptql/ProcessQueryFactory.java:181 | joining the comma-separated pieces with commas gives back the query |
| `StringTokenizer.SegmentsJoin` | bindings/java/src/org/hyperic/sigar/ptql/ProcessQueryFactory.java:181 | joining comma-free pieces and splitting again gives back the pieces |
| `StringTokenizer.TokensAreNonEmptySegments` | bindings/java/src/org/hyperic/sigar/ptql/ProcessQueryFactory.java:181-184 | the tokens are exactly the non-empty comma-separated pieces in order, so empty clauses are skipped |
| `StringTokenizer.TwoTokens` | bindings/java/src/org/hyperic/sigar/ptql/ProcessQueryFactory.java:181-184 | two comma-free clauses joined by one comma are tokenised into those two clauses |
| `BranchOrder.GetOrder` | bindings/java/src/org/hyperic/sigar/ptql/ProcessQueryFactory.java:43-61 | the rank, computed by testing `JavaLang.StartsWith` (`String.startsWith`) against each domain prefix, is always one of 1, 7, 8, 9, 10, 11 |
| `BranchOrder.GetOrderByDomain` | bindings/java/src/org/hyperic/sigar/ptql/ProcessQueryFactory.java:43-61 | each rank belongs to exactly one domain: 11 iff `Port.`, 10 iff `Env.`, 9 iff `Args.`, 8 iff `Exe.`, 7 iff `State.`, 1 iff none of these |
| `BranchOrder.CompareIsComparator` | bindings/java/src/org/hyperic/sigar/ptql/ProcessQueryFactory.java:63-67 | `compare`, modelled as `BranchOrder.Compare` = `GetOrder(a) - GetOrder(b)`, follows the ranks in sign, is antisymmetric, is zero on equal arguments, is transitive and stays within ±10 |
| `BranchOrder.SortByRank` | bindings/java/src/org/hyperic/sigar/ptql/ProcessQueryFactory.java:75-78 | the sorted keys are a permutation of the keys, in non-decreasing rank, with keys of each rank in their original order |
| `BranchOrder.JavaSortIsSortByRank` | bindings/java/src/org/hyperic/sigar/ptql/ProcessQueryFactory.java:78 | any stable sort by `compare`, Java's `Arrays.sort` included, produces exactly `SortByRank` |
| `StableSort.Insert` | bindings/java/src/org/hyperic/sigar/ptql/ProcessQueryFactory.java:78 | inserting into a sorted sequence keeps it sorted by rank |
| `StableSort.InsertPermutes` | bindings/java/src/org/hyperic/sigar/ptql/ProcessQueryFactory.java:78 | inserting adds the one element and loses nothing |
| `StableSort.SortBy` | bindings/java/src/org/hyperic/sigar/ptql/ProcessQueryFactory.java:78 | the sort returns a permutation of its input in non-decreasing rank |
| `StableSort.SortIsStable` | bindings/java/src/org/hyperic/sigar/ptql/ProcessQueryFactory.java:78 | the elements of each rank come out of the sort in the order they went in |
| `StableSort.SortedStableUnique` | bindings/java/src/org/hyperic/sigar/ptql/ProcessQueryFactory.java:78 | two sorted sequences with the same elements of every rank, in the same order, are equal |
| `StableSort.AnyStableSortIsSortBy` | bindings/java/src/org/hyperic/sigar/ptql/ProcessQueryFactory.java:78 | any sorted, stable rearrangement of the input equals `SortBy` |
| `QueryTypes.Put` | bindings/java/src/org/hyperic/sigar/ptql/ProcessQueryFactory.java:186 | a put maps the key to the value, records the value in `branches` even when the key already existed, and keeps each key listed exactly once |
| `QueryTypes.FromPairs` | bindings/java/src/org/hyperic/sigar/ptql/ProcessQueryFactory.java:180-187 | after the loop, `branches` holds the value of every clause in textual order, and the key list is valid |
| `QueryTypes.FromPairsLastWriteWins` | bindings/java/src/org/hyperic/sigar/ptql/ProcessQueryFactory.java:183-187 | a path's value in the map is the value of the last clause that names it |
| `QueryTypes.FromPairsKeysNamed` | bindings/java/src/org/hyperic/sigar/ptql/ProcessQueryFactory.java:183-187 | every key of the map was named by some clause |
| `JavaOutcome.Traverse` | bindings/java/src/org/hyperic/sigar/ptql/ProcessQueryFactory.java:183-187 | a loop whose body may throw either completes with one result per element, or throws the exception of the first element whose step threw |
| `Compiler.ResolveOne` | bindings/java/src/org/hyperic/sigar/ptql/ProcessQueryFactory.java:81-108 | one clause keeps its attribute path; a value not starting with `$` passes unchanged; an empty value throws; a tagged key always comes with a tagged value taken from `branches`; the only `MalformedQueryException` is "Variable out of range" for an integer reference |
| `Compiler.ResolvePositional` | bindings/java/src/org/hyperic/sigar/ptql/ProcessQueryFactory.java:88-100 | `$n` resolves to the n-th clause value in textual order, with the key tagged clone and the value tagged value, exactly when 1 ≤ n ≤ number of clauses; otherwise it throws "Variable out of range " + the text after `$` |
| `Compiler.ResolveNamed` | bindings/java/src/org/hyperic/sigar/ptql/ProcessQueryFactory.java:101-105 | a non-integer `$name` becomes the system property `name` when set and stays `$name` otherwise; it never throws and never tags the clause |
| `Compiler.ResolveLoneDollar` | bindings/java/src/org/hyperic/sigar/ptql/ProcessQueryFactory.java:101-102 | a lone `$` throws `IllegalArgumentException` from `System.getProperty("")` |
| `Compiler.ResolveAll` | bindings/java/src/org/hyperic/sigar/ptql/ProcessQueryFactory.java:80-109 | the loop appends exactly one pair per sorted key, in sorted order; it succeeds iff every clause resolves; otherwise it throws the exception of the first clause in sorted order that fails |
| `Compiler.Prepare` | bindings/java/src/org/hyperic/sigar/ptql/ProcessQueryFactory.java:69-114 | a built query is a compiled program with one append per cost-sorted map key, in that order; the i-th append is exactly what resolving the i-th key against its own map value gives; and the builder accepted the program |
| `Compiler.PrepareEmitsByCost` | bindings/java/src/org/hyperic/sigar/ptql/ProcessQueryFactory.java:75-108 | a compiled program names every key of the map exactly once, cheap clauses before expensive ones, with equal-cost clauses in the map's key order |
| `Compiler.PrepareFailure` | bindings/java/src/org/hyperic/sigar/ptql/ProcessQueryFactory.java:80-113 | `prepare` throws exactly when some clause fails to resolve or the builder rejects the program; the exception is the first failing clause's in cost order, and otherwise the one `finish`/`load` threw |
| `Factory.GetPidInstance` | bindings/java/src/org/hyperic/sigar/ptql/ProcessQueryFactory.java:116-141 | a comma after position 0 throws "Invalid Pid query"; otherwise an exception from `split` or `new QueryBranch` escapes unchanged; a comma-free `eq` clause on `PidFile` always gives a pid-file query on the split value and one on `Service` always gives a service query; a success needs operator `eq` and one of those two attributes |
| `Factory.PidInstanceErrors` | bindings/java/src/org/hyperic/sigar/ptql/ProcessQueryFactory.java:128-140 | an operator other than `eq` throws "Invalid Pid operator"; any attribute other than `PidFile` or `Service` throws "Unsupported method: " + attr |
| `Factory.PidCommaTest` | bindings/java/src/org/hyperic/sigar/ptql/ProcessQueryFactory.java:119 | on the fast path `indexOf(",") > 0` holds exactly when the query contains a comma |
| `Factory.CompileClauses` | bindings/java/src/org/hyperic/sigar/ptql/ProcessQueryFactory.java:180-191 | the general path builds only compiled programs, and only when every clause splits |
| `Factory.GetInstance` | bindings/java/src/org/hyperic/sigar/ptql/ProcessQueryFactory.java:143-196 | null throws "null query" and empty throws "empty query", with the cache unchanged; cached entries are never replaced; a failure leaves the cache unchanged; a success is stored under exactly the query string |
| `Factory.GetInstanceCacheHit` | bindings/java/src/org/hyperic/sigar/ptql/ProcessQueryFactory.java:155-159 | a cached query is returned as it is, with the cache unchanged |
| `Factory.GetInstanceIdempotent` | bindings/java/src/org/hyperic/sigar/ptql/ProcessQueryFactory.java:155-195 | after a successful build, asking again returns the same query without touching the cache, whatever the collaborators would now do |
| `Factory.PidPathBypassesCompiler` | bindings/java/src/org/hyperic/sigar/ptql/ProcessQueryFactory.java:172-178 | a `Pid.PidFile.`/`Pid.Service.` query (the prefix test `Factory.IsPidQuery`) is decided by `getPidInstance` alone; system properties and the builder do not affect it |
| `Factory.PidQueryWithComma` | bindings/java/src/org/hyperic/sigar/ptql/ProcessQueryFactory.java:172-177 | a PID query with a comma throws "Invalid Pid query" and caches nothing |
| `Factory.GeneralPathAccumulates` | bindings/java/src/org/hyperic/sigar/ptql/ProcessQueryFactory.java:180-191 | the general path splits each non-empty comma-separated clause in textual order, records their values in that order, and returns what `prepare` returns |
| `Factory.GeneralPathSplitFails` | bindings/java/src/org/hyperic/sigar/ptql/ProcessQueryFactory.java:181-187 | on the general path, the exception `QueryBranch.split` throws for the first rejected clause escapes from `getInstance`, and the cache is unchanged |
| `Scenarios.PositionalReference` | bindings/java/src/org/hyperic/sigar/ptql/ProcessQueryFactory.java:88-100 | `State.Name.eq=foo,Exe.Name.eq=$1` compiles to the `State` clause followed by a clone of `Exe.Name.eq` whose value is `foo` |
| `Scenarios.ReferenceOutOfRange` | bindings/java/src/org/hyperic/sigar/ptql/ProcessQueryFactory.java:91-93 | `State.Name.eq=foo,Exe.Name.eq=$5` throws "Variable out of range 5" and caches nothing |
| `Scenarios.UnsetPropertyFallsBack` | bindings/java/src/org/hyperic/sigar/ptql/ProcessQueryFactory.java:101-102 | `Exe.Name.eq=$NOPE_VAR_XYZ` with that property unset compiles with the literal `$NOPE_VAR_XYZ` |
| `Scenarios.PidFileFastPath` | bindings/java/src/org/hyperic/sigar/ptql/ProcessQueryFactory.java:172-178 | `Pid.PidFile.eq=/var/run/app.pid` becomes a pid-file query on `/var/run/app.pid` and is cached |
| `Scenarios.PidFileTwoClauses` | bindings/java/src/org/hyperic/sigar/ptql/ProcessQueryFactory.java:119-121 | `Pid.PidFile.eq=a,Pid.PidFile.eq=b` throws "Invalid Pid query" |

## Left out

- The native branch (`useNative`, `SigarProcessQuery.create`, lines 33-34 and 161-170) is left out. It calls native code through JNI, so the model behaves as if `sigar.ptql.native` is not `"true"`.
- The cache's `ReferenceMap.synchronizedMap` eviction and thread safety are left out. They depend on the garbage collector and on concurrency. The cache is a plain map that only grows.
- The internals of `QueryBranch.split`, `QueryBranch`, `ProcessQueryBuilder`, `PidFileQuery` and `WindowsServiceQuery` are not part of this model. `QueryBranch.split`, `new QueryBranch` and the builder's `finish`/`load` are parameters that may throw, and no property assumes anything about what they return.
- `ProcessQueryBuilder.append` and `addModifier` (lines 97-100 and 108) and the constructors `new PidFileQuery` and `new WindowsServiceQuery` (lines 133 and 136) are assumed never to throw: the first two are recorded as an `Append`, the last two are datatype constructors. If `append` could throw, Java would report that exception at the clause where it happens, before later clauses are resolved, while the model reports a builder failure only through `finish`, after every clause has resolved.
- How `addModifier` encodes `MOD_VALUE` and `MOD_CLONE` in the string is left out. A tag is kept next to the text instead.
- `System.getProperty` is a parameter of type `string -> Option<string>`. Only its rejection of the empty key is modelled.
- `JavaLang.ParseInt`: accepts only ASCII digits `0`-`9`. Java's `Character.digit` also accepts other Unicode decimal digits, such as Arabic-Indic digits. With those digits a `$n` reference would be classed as a named variable instead.
- `QueryTypes.FromPairs`: lists the keys in first-insertion order. `QueryBranchMap`'s `keySet()` order comes from its hash map, and this model does not include it. This order matters only for equal-rank keys after the stable sort, and every `prepare` property is proved for any valid key order.
- Evaluating a compiled query against live processes is left out. It is operating-system I/O.
