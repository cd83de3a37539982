# Verified models of the rchain-rust consensus, compiler and governance cores

A Dafny 4.11 project that models six cores of the node and proves properties of
them. `dafny verify dfyconfig.toml` checks the whole project.

- **Canonicalizing sorter** (`Orders`, `ScoreTree`, `StableSort`, `Ast`, `Sorter`, `SorterIdempotent`, `SorterScope`,
  `SorterInjective`, `SorterCanonical`, `Congruence`, `CanonicalInside`, `TermOrder`, `Scope`, `Occurrences`, `CountedTerms`): the score order
  is a total order agreeing with equality, and which term comes first is stated for every kind of term; sorting is idempotent, keeps scoping,
  closedness and the content of every term, and where the score is injective its result decides equality up to reordering at every depth.
- **Normalizer** (`ProcAst`, `Contexts`, `ContextLaws`, `ParOps`, `Desugar`, `Dialects`, `Normalizer`, `ScopeLaws`,
  `Operands`, `NormalizerScope`, `Desugared`, `ParLaws`, `Reading`, `NormalizerReads`, `CorePrograms`, `Refusals`, `Evaluation`, `Meaning`, `Accumulator`,
  `Renaming`, `FreshNames`, `Commutation`): the functions of `Normalizer` are total, so
  normalization terminates on every source tree under the weight of `Desugar`, although several rewritings build larger trees.
  Every output reads by names as its source, under a reading defined without the normalizer; core programs always compile, and compiling an
  expression keeps its meaning under the evaluator. Outputs are well scoped, the accumulator law holds exactly where the code allows it, the result does not
  depend on the global counter behind fresh identifiers, and map-free programs compile to one result in either order of composition.
- **Block validation and the DAG** (`Blocks`, `Validation`, `History`, `RepeatSafety`, `Regression`, `MessageDag`, `DagStorage`, `Rebuild`):
  a run is a log of inserted blocks. Safety over every run: no deploy repeats along an ancestry, each sender's messages form one chain,
  what a sender has seen never shrinks, `seen` is ancestry, and what a restart restores.
- **Governance and Pauli fold** (`Sums`, `Trust`, `Censure`, `Delegation`, `Tally`, `Pauli`): the bounded loops reach their
  fixed points and compute independent reference definitions.
- **Native ledger** (`Bytes`, `Ledger`, `NativeState`): a class over a byte store refines a two-map state machine, and every run of that
  machine conserves vaults plus stakes up to a stated outflow.
- **Mergeable channels and codecs** (`Codecs`, `NumberDiffs`): round trips, injectivity and telescoping differences.

## Where the code and its documentation differ

The models follow the code in each case.

- `annihilate_gauge` (`qucalc/src/lib.rs:334-351`) is documented to drop the first gauge pair; it drops every pair its scan meets, and
  leaves pairs that form on the way (`Pauli.SecondPairDropped`, `Pauli.InnerPairLeaves`, `Pauli.FirstOnlyIff`).
- `censure` (`qucalc/src/lib.rs:573-579`) is documented to count members who censure; it counts list entries, the target's own among
  them (`Censure.OneMemberDiscredits`, `Censure.CleanIff`, `Censure.CleanListsAreFair`).
- `withdraw` (`rholang/src/native_state.rs:244-262`) is documented to credit the stake back; when the vault would overflow 64 bits the
  bond is already gone (`Ledger.FullVaultLosesStake`, `Ledger.FailureLosesStakeIff`, `Ledger.BoundedRunConserves`). Its error for a key
  without an address never occurs: a validator key is 65 bytes and every such key has an address.
- `create` (`casper/src/dag.rs:65-116`) is documented to rebuild the representation; its height map leaves failed blocks out, so it fails
  when a good block cites a failed one, as it may once the failed sender is slashed (`Rebuild.FailingRestart`, `Rebuild.RestartFailsIff`).
- `resolve_weights` (`qucalc/src/lib.rs:502-505`) says that negative trust gives no negative or zero base; trust below 0 gives a base of 0
  (`Delegation.BaseLaw`).
- A conditional normalizes its target into the incoming accumulator (`rholang/src/normalizer.rs:947`), so `P | if ...` differs from what
  the other forms do (`Accumulator.AccumulatorLawIff`).

## Model

| member | source | states |
|---|---|---|
| `ScoreTree.CompareBytesSigned` | models/src/sorter.rs:108-120 | the byte loop computes the lexicographic order of the bytes read as signed |
| `ScoreTree.TreeEqualIff` | models/src/sorter.rs:129-163 | two score trees compare equal exactly when they are the same tree |
| `ScoreTree.TreeSwap` | models/src/sorter.rs:129-163 | swapping the arguments swaps the comparison |
| `ScoreTree.TreeTransitive` | models/src/sorter.rs:129-163 | the tree order is transitive |
| `ScoreTree.TreeTotal` | models/src/sorter.rs:89-163 | any two trees are ordered one way or the other |
| `ScoreTree.TreeAntisymmetric` | models/src/sorter.rs:129-143 | trees ordered both ways are equal |
| `ScoreTree.AtomLessIff` | models/src/sorter.rs:89-106 | atoms order by kind (integers, big integers, strings, bytes) and then by value, strings by character and bytes by signed byte, the first difference deciding |
| `ScoreTree.TreeLessIff` | models/src/sorter.rs:129-163 | one tree is below another exactly when it is a leaf before a node, a lower atom, or a node whose first different child is lower or missing |
| `StableSort.SortSorted` | models/src/sorter.rs:192-195 | sorting by score gives an ordered permutation of the list |
| `StableSort.SortStable` | models/src/sorter.rs:192-195 | sorting keeps, for every score, the input order of the elements that carry it |
| `StableSort.SortCharacterised` | models/src/sorter.rs:192-195 | ordered and stable together determine the result, so any stable sort computes it |
| `StableSort.SortEqualIff` | models/src/sorter.rs:192-195 | two lists sort to the same list exactly when they agree score by score |
| `StableSort.SortedScoresOrderFree` | models/src/sorter.rs:718-725 | lists with the same scores, in any order, sort to the same list of scores |
| `SorterIdempotent.SortParStable` | models/src/sorter.rs:704-762 | sorting a sorted term gives the same term and the same score, for every term of the mutually recursive syntax |
| `SorterScope.SortKeepsJudgment` | models/src/sorter.rs:704-762 | sorting leaves closedness (in and out of patterns) and scoping at every depth unchanged, in both directions |
| `SorterInjective.ParInjective` | models/src/sorter.rs:704-755 | on terms without maps, without an empty receive remainder and with free counts determined by the patterns, equal scores mean equal sorted terms |
| `SorterCanonical.MergeScoresAgree` | models/src/ast.rs:153-165 | the sorted forms of `p\|q` and `q\|p` always have the same score |
| `SorterCanonical.MergeCommutesIff` | models/src/sorter.rs:704-755 | they are the same term exactly when the parts commute score by score |
| `SorterCanonical.MergeCommutes` | models/src/sorter.rs:704-755 | they are the same term on the fragment where scores are injective |
| `SorterCanonical.ScoreIdentifiesTerm` | models/src/sorter.rs:704-762 | on that fragment two terms have the same score exactly when they have the same canonical form |
| `SorterCanonical.MapValuesShowOrder` | models/src/sorter.rs:651-678 | two maps with the same key and different values have equal scores, and their canonical form shows the order of composition |
| `SorterCanonical.FreeCountShowsOrder` | models/src/sorter.rs:256-286 | two receives whose bind differs only in its free count have equal scores and show the order of composition |
| `SorterCanonical.EmptyRemainderShowsOrder` | models/src/sorter.rs:259-276 | so do a missing and an empty remainder of a receive bind |
| `Congruence.SortKeepsContent` | models/src/sorter.rs:704-755 | sorting every term keeps its content: all its parts at every depth, up to the order of parallel parts and of the uris of a `new` |
| `Congruence.SameContentSameScore` | models/src/sorter.rs:704-755 | terms of equal content have equal scores, whatever the terms |
| `Congruence.FormDecidesContent` | models/src/sorter.rs:704-762 | on the score-injective fragment two terms have the same canonical form exactly when they have the same content, so canonical form decides equality up to reordering at every depth |
| `CanonicalInside.FormsInside` | models/src/sorter.rs:704-755 | whatever stands directly inside a canonical form is its own canonical form |
| `TermOrder.SendOrder` | models/src/sorter.rs:234-254 | sends order by persistence, channel, data in turn and connective flag |
| `TermOrder.ShorterSendFirst` | models/src/sorter.rs:234-254 | of two sends that agree as far as the shorter goes, the shorter comes first in the canonical form, in either input order |
| `TermOrder.ReceiveFlagsFirst` | models/src/sorter.rs:288-313 | receives order by persistence, then peek |
| `TermOrder.MatchOrder` | models/src/sorter.rs:361-396 | matches order by target, then case by case (pattern, body, bound count), then by connective flag |
| `TermOrder.BindOrder` | models/src/sorter.rs:256-286 | binds order by source, and with equally many patterns by the patterns and then the remainder |
| `TermOrder.NewCountFirst` | models/src/sorter.rs:315-359 | `new`s order first by how much they bind |
| `TermOrder.MethodOrder` | models/src/sorter.rs:679-702 | method calls order by name, target and arguments |
| `TermOrder.CollectionOrder` | models/src/sorter.rs:602-650 | lists and sets order by remainder and then element by element, tuples element by element |
| `TermOrder.BundleOrder` | models/src/sorter.rs:398-417 | bundles order by capability, none before read, write and both, then by body |
| `TermOrder.ConnectivesInOrder` | models/src/sorter.rs:419-481 | connectives order by kind |
| `TermOrder.UnforgeablesInOrder` | models/src/sorter.rs:483-506 | unforgeable names order by kind, then by signed bytes |
| `TermOrder.OperandsLeftToRight` | models/src/sorter.rs:515-527 | applications of one operator order by the left operand first |
| `TermOrder.KindsInOrder` | models/src/sorter.rs:529-702 | expressions order by kind in the order of the score constants |
| `TermOrder.GroundsByValue` | models/src/sorter.rs:529-702 | literals of one kind order by value, true before false |
| `TermOrder.VariablesInOrder` | models/src/sorter.rs:199-218 | bound before free before wildcard, then by index |
| `Contexts.MakeEnv` | rholang/src/env.rs:56-62 | the loop puts the values one after the other |
| `Contexts.AbsorbFreeLoop` | rholang/src/compiler.rs:77-93 | the insertion loop computes the bound map with the free names appended by level |
| `Contexts.MergeLoop` | rholang/src/compiler.rs:205-241 | the insertion loop computes the merged free map with the second levels shifted, and collects exactly the names in both |
| `ContextLaws.FreePutValid` | rholang/src/compiler.rs:180-196 | putting a new name keeps free levels a bijection onto 0 up to the next level |
| `ContextLaws.FreeMergeValid` | rholang/src/compiler.rs:205-241 | so does merging a free map that shares no name |
| `ContextLaws.AbsorbValid` | rholang/src/compiler.rs:77-93 | absorbing a free map keeps every binding below the next index |
| `ContextLaws.NamelessLookup` | rholang/src/dispatch.rs:34-36 | after any sequence of puts and absorbed free maps, the index of a name read from the environment of the values in binding order is the value bound last to that name |
| `ContextLaws.ShiftRenumbers` | rholang/src/env.rs:42-49 | reading a shifted environment is reading the original at the shifted index |
| `ParLaws.BuildersHonest` | models/src/par_ops.rs:140-238 | every builder keeps the connective flag of a term equal to whether one of its parts, bundles aside, uses a connective |
| `ParLaws.SingleIff` | models/src/par_ops.rs:276-282 | a term is taken for a single bundle or connective exactly when it was built as that alone |
| `Occurrences.WellScopedIff` | models/src/types.rs:368-480 | a term is well scoped exactly when every bound variable anywhere in it points to one of the binders around it |
| `Occurrences.ClosedIff` | models/src/types.rs:222-325 | a term is closed exactly when every free variable, remainders of binds aside, occurs inside a pattern |
| `Desugar.ChoiceWeight` | rholang/src/normalizer.rs:237-250 | rewriting a choice lowers the weight |
| `Desugar.SendSynchWeight` | rholang/src/normalizer.rs:1053-1084 | rewriting a synchronous send into a new name, a send and a receive lowers the weight, though the tree grows |
| `Desugar.ComplexWeight` | rholang/src/normalizer.rs:1107-1166 | rewriting complex receive sources lowers the weight |
| `Desugar.NestWeight` | rholang/src/normalizer.rs:1091-1100 | nesting several receipts weighs the receipts plus the body, which is less than the input they came from |
| `Desugar.ConcLetWeight` | rholang/src/normalizer.rs:1320-1412 | rewriting a concurrent let into sends and one receive lowers the weight |
| `Desugar.LetContinuationWeight` | rholang/src/normalizer.rs:1320-1412 | a sequential let outweighs the let left after its first declaration by that declaration and a constant |
| `Desugared.ChoiceBranches` | rholang/src/normalizer.rs:237-250 | a choice is one receive per branch, side by side and in order |
| `Desugared.SynchronousSend` | rholang/src/normalizer.rs:1053-1084 | a synchronous send declares a name, sends it before the data and waits on it before the continuation |
| `Desugared.NestingComposes` | rholang/src/normalizer.rs:1091-1100 | receipts nest from the left |
| `Desugared.ComplexJoin` | rholang/src/normalizer.rs:1107-1166 | bind by bind: a plain source stays, `?!` also receives a name that the body acknowledges on, `!?` sends a declared name with its data and receives on that name |
| `Desugared.ConcurrentLet` | rholang/src/normalizer.rs:1344-1412 | a concurrent let runs one send per declaration beside one joint receive |
| `Desugared.ConcurrentParts` | rholang/src/normalizer.rs:1344-1412 | each declaration has a name of its own, on which exactly its values are sent and its patterns receive |
| `Desugared.SequentialLet` | rholang/src/normalizer.rs:1320-1412 | a sequential let compiles to what nested lets compile to, in every context |
| `NormalizerScope.ProcOk` | rholang/src/normalizer.rs:144-253 | every successful normalization, for every term form, is well scoped at the depth of its bound map and keeps free levels valid and growing; its own free variables reach exactly the levels handed out, in both directions; on plain terms it is closed when it met no free name; on map-free terms every bind counts its patterns |
| `NormalizerScope.NewOk` | rholang/src/normalizer.rs:620-666 | the same for `new`: the body lies under as many binders as are declared |
| `NormalizerScope.CasesOk` | rholang/src/normalizer.rs:668-736 | the same for `match`: each body lies under the free names of its pattern, normalized in a scope of its own |
| `NormalizerScope.ContrOk` | rholang/src/normalizer.rs:763-832 | the same for contracts |
| `NormalizerScope.ReceiveOk` | rholang/src/normalizer.rs:1169-1318 | the same for receives, after the binds were sorted and their free maps merged |
| `NormalizerScope.LetMatchOk` | rholang/src/normalizer.rs:1320-1412 | the same for one let declaration |
| `NormalizerScope.BundleOk` | rholang/src/normalizer.rs:996-1044 | the same for bundles, whose free map is checked and dropped |
| `NormalizerScope.NamesReach` | rholang/src/normalizer.rs:1226-1255 | the terms of a bind's patterns reach exactly the levels its free map handed out |
| `NormalizerScope.CompiledWellScoped` | rholang/src/normalizer.rs:1654-1678 | what `normalize_term` accepts is well scoped at depth 0, before and after sorting |
| `NormalizerScope.ScopeCheckNeverRejects` | rholang/src/normalizer.rs:1625-1638 | the scope check of `ast_to_adt` never rejects |
| `NormalizerScope.PlainProgramsCompile` | rholang/src/normalizer.rs:1625-1638 | on programs with negation, disjunction and `matches` in patterns only, `ast_to_adt` gives the sorted term of `normalize_term` and refuses only what that refuses |
| `NormalizerScope.FreeOnlyInOperands` | rholang/src/normalizer.rs:1654-1678 | for every program, what `normalize_term` accepts has free variables inside operands of negation and disjunction and patterns of `matches` only |
| `Operands.ParSplit` | models/src/types.rs:222-325 | a term without free variables elsewhere is closed exactly when those operands are |
| `NormalizerScope.NotClosedIff` | rholang/src/normalizer.rs:1625-1638 | the closedness check of `ast_to_adt` rejects exactly the accepted programs with a free variable in such an operand |
| `NormalizerScope.CompiledCounted` | rholang/src/normalizer.rs:1226-1318 | without map literals and in a map-free environment, every bind's free count is the number of levels its patterns reach |
| `CountedTerms.ParFaithful` | models/src/sorter.rs:256-286 | such terms lie in the score-injective fragment, for one fixed free counter |
| `NormalizerScope.MatchesHidesFreeName` | rholang/src/normalizer.rs:531-564 | `Nil matches x` passes `normalize_term` and is stopped by the closedness check alone |
| `NormalizerScope.TopLevelIff` | rholang/src/normalizer.rs:1654-1678 | `normalize_term` accepts exactly what leaves no free name, wildcard or connective, and reports a connective before a wildcard before a free name |
| `NormalizerReads.ProcReads` | rholang/src/normalizer.rs:144-253 | every successful normalization, of every term form, in every context and accumulator, builds a term that reads by names as its source: operators and operands in place, variables at the binding made last and used as the sort they were bound as, bodies under the names their patterns bind |
| `NormalizerReads.BinaryReads` | rholang/src/normalizer.rs:495-529 | the left operand is on the left, under the same operator |
| `NormalizerReads.SendReads` | rholang/src/normalizer.rs:834-885 | the channel is the channel, the data stand in their order, and persistence is kept |
| `NormalizerReads.IfReads` | rholang/src/normalizer.rs:938-994 | `true` takes the body and `false` the alternative |
| `NormalizerReads.CasesRead` | rholang/src/normalizer.rs:668-736 | each case keeps its pattern and its body, and the body lies under the names of its own pattern |
| `NormalizerReads.ContrReads` | rholang/src/normalizer.rs:763-832 | a contract is a persistent receive whose body lies under its formals and remainder |
| `NormalizerReads.ReceiveReads` | rholang/src/normalizer.rs:1169-1318 | a join holds its binds in canonical form and score order, equal scores as written, and its body lies under their names in that order |
| `NormalizerReads.NewReads` | rholang/src/normalizer.rs:620-666 | a `new` binds the declared names, those without a uri first and the others by uri, equal ones as written, and lists the uris in that order |
| `NormalizerReads.CompiledReads` | rholang/src/normalizer.rs:1654-1678 | whatever `normalize_term` accepts reads as the program with no name in scope |
| `NormalizerReads.ProgramReads` | rholang/src/normalizer.rs:1625-1638 | `ast_to_adt` answers with the canonical form of a term that reads as the program |
| `CorePrograms.ProcCompiles` | rholang/src/normalizer.rs:144-253 | normalization succeeds on every core program (readable literals, bound variables used as their sort, plain distinct patterns) in every context that binds its names |
| `CorePrograms.CoreProgramsCompile` | rholang/src/normalizer.rs:1654-1678 | a closed core program passes `normalize_term` |
| `Refusals.PatternsRefused` | rholang/src/normalizer.rs:1654-1678 | a program with a wildcard, a variable or a logical connective anywhere among its parallel parts is refused |
| `Refusals.ContractRefused` | rholang/src/normalizer.rs:738-761 | outside patterns, a contract with a negation or disjunction for a formal is refused, whatever else it holds |
| `Refusals.ReceiveRefused` | rholang/src/normalizer.rs:738-761 | the same for a receive, whichever bind holds the pattern |
| `Refusals.BundleIff` | rholang/src/normalizer.rs:996-1044 | a bundle is accepted exactly when its body compiles without connectives and no free name or wildcard has been met |
| `Refusals.LiteralIff` | rholang/src/normalizer.rs:52-66 | a literal is refused exactly when its digits cannot be read or a plain integer does not fit 64 bits |
| `Meaning.ReadingKeepsMeaning` | rholang/src/reduce.rs:122-640 | a term that reads as an expression evaluates, with indices, to what the expression means by names, failures included |
| `Meaning.CompilingKeepsMeaning` | rholang/src/normalizer.rs:471-529 | so compiling an expression keeps its meaning, in every context and for all values in scope |
| `Meaning.ConditionDecides` | rholang/src/reduce.rs:1424-1446 | a conditional takes its body when the condition means true and the alternative when it means false |
| `Meaning.AllocationReads` | rholang/src/reduce.rs:1383-1421 | allocation for a `new` supplies each declaration, at the position where the body reads it, with the value of its own uri or a name made up for it |
| `Meaning.ScopedNeverUnbound` | models/src/types.rs:368-480 | evaluating a well-scoped expression never asks the environment for a value it does not hold |
| `Evaluation.Alloc` | rholang/src/reduce.rs:1383-1421 | the loops put a made-up name for every declaration without uri and then the values of the uris, or fail on a uri without value |
| `Evaluation.SelectCase` | rholang/src/reduce.rs:1424-1446 | the loop returns the body of the first case whose pattern is the value |
| `Evaluation.DivisionLaw` | rholang/src/reduce.rs:288-361 | quotient and remainder truncate toward zero and fit together |
| `Evaluation.LogicLaw` | rholang/src/reduce.rs:442-465 | `and` and `or` by their truth tables, and the left operands on which the short forms stop |
| `Evaluation.ComparisonLaw` | rholang/src/reduce.rs:135-170 | the four comparisons are those of one order, on numbers and on texts |
| `Evaluation.ArithmeticLaw` | rholang/src/reduce.rs:260-417 | sums, differences and products are exact on unbounded integers, and on 64-bit ones exactly where the result fits |
| `Accumulator.AccumulatorLaw` | rholang/src/normalizer.rs:144-253 | normalizing a term with no conditional on its parallel spine into an accumulator equals normalizing into Nil and appending the accumulator field by field, with the same error or free map |
| `Accumulator.AccumulatorShape` | rholang/src/normalizer.rs:144-253 | for every term the accumulator decides neither success, nor the error, nor the free map |
| `Accumulator.AccumulatorLawIff` | rholang/src/normalizer.rs:938-994 | for terms that normalize and accumulators that are not a bare connective flag, the law holds exactly when there is no such conditional or nothing was accumulated |
| `Accumulator.IfReadsAccumulator` | rholang/src/normalizer.rs:938-994 | a concrete conditional for which the law fails |
| `FreshNames.ProcFresh` | rholang/src/normalizer.rs:1046-1051 | starting the global counter k higher shifts every fresh identifier by k through the whole run and leaves the output term unchanged |
| `FreshNames.CounterDoesNotMatter` | rholang/src/normalizer.rs:1625-1678 | the compiled term of a parsed program does not depend on the value of the global counter |
| `Commutation.ParallelCompiles` | rholang/src/normalizer.rs:160-184 | two programs that compile alone, the second without a spine conditional, compile in parallel to the merge of their terms |
| `Commutation.ParallelCommutes` | rholang/src/normalizer.rs:160-184 | `P\|Q` and `Q\|P`, compiled at any two counters, have equal scores, and are the same sorted term exactly when the parts commute score by score |
| `Commutation.ParallelCompilesToOneTerm` | rholang/src/normalizer.rs:1625-1638 | on the score-injective fragment they compile to the same result |
| `Commutation.MapFreeProgramsCommute` | rholang/src/normalizer.rs:1625-1638 | `P\|Q` and `Q\|P` compile to one result for all parsed programs without map literals and spine conditionals, in a map-free environment, at any two counters |
| `Validation.BlockNumber` | casper/src/validate.rs:117-136 | passes exactly when the number is one above the highest non-failed justification, or 0 when there is none; faults exactly when a justification is missing |
| `Validation.SequenceNumber` | casper/src/validate.rs:140-159 | passes exactly when the sequence number is one above the highest of the sender among the justifications, failed ones included |
| `Validation.ParentsMetadata` | casper/src/proto_util.rs:21-37 | returns exactly the non-failed justifications, or nothing when one is missing |
| `Validation.HighestNumber` | casper/src/proto_util.rs:16-18 | returns the maximum of the numbers, or -1 |
| `Validation.RepeatDeploy` | casper/src/validate.rs:253-297 | the queue loop terminates on every finite DAG and reports a repeat exactly when a block reachable from the non-failed parents, through non-failed parents at or above the horizon, shares a key, on stores that hold what is reached; faults only when something is missing |
| `Validation.BlockSummary` | casper/src/validate.rs:315-346 | on stores that hold what is looked up, passes exactly when every check holds and names the first check that fails in the given order; faults only when they miss something |
| `Validation.NeglectedBlock` | casper/src/validate.rs:214-234 | passes exactly when no failed justification has a sender with a positive stake in the block; missing justifications are skipped |
| `Validation.DeploysAdmitted` | casper/src/validate.rs:48-114 | the four deploy checks pass exactly when every deploy is on the shard, pays the price, and is in a block numbered from its validity height on, before it expires |
| `Regression.RegressionIff` | casper/src/validate.rs:162-211 | the check passes exactly when the sender's previous message lost nothing: each validator's message it cited, and all that message saw, is seen through the new justification of that validator |
| `Regression.HonestBlocksPass` | casper/src/validate.rs:162-211 | a block whose justifications are each at or above the one its previous message cited passes the check |
| `Regression.ViewsNeverRegress` | casper/src/validate.rs:162-211 | in every valid run, along a sender's blocks what it has seen through each validator only grows |
| `RepeatSafety.PlacedInTime` | casper/src/validate.rs:48-72 | in every run a non-failed block lies above its non-failed justifications and holds no deploy of its own future |
| `RepeatSafety.WindowReached` | casper/src/proto_util.rs:40-50 | an ancestor at or above the horizon is one the search reaches |
| `RepeatSafety.NoDeployRepeats` | casper/src/validate.rs:253-297 | in every run whose non-failed blocks passed the summary, with keys that fix the validity height, no block shares a deploy with any ancestor reached through non-failed blocks, at any distance |
| `MessageDag.SeenIsAncestry` | casper/src/dag.rs:32-51 | `seen` is exactly the message and its transitive justifications |
| `MessageDag.SequenceIdentifies` | casper/src/dag.rs:145-165 | in a run without equivocation a sender and sequence number identify a message |
| `MessageDag.OneChain` | casper/src/validate.rs:140-159 | of two messages of a sender whose blocks passed the sequence check, the higher has the lower among its ancestors and has seen all it saw |
| `MessageDag.ValidRunSequenced` | casper/src/validate.rs:315-346 | a valid run meets this for every sender none of whose blocks failed |
| `MessageDag.NumbersContiguous` | casper/src/validate.rs:117-136 | in a valid run with a non-failed block there is a non-failed block of each number up to its own |
| `MessageDag.StoresComplete` | casper/src/dag.rs:145-165 | every block of a run has its body and its justifications in the stores, so the validation of a further block finds them |
| `DagStorage.MessageFrom` | casper/src/dag.rs:32-51 | the loop gathers what all justifications have seen, and fails exactly when one has no message |
| `DagStorage.Storage.Insert` | casper/src/dag.rs:145-258 | a known hash is a no-op, an equivocation is refused before any write, and otherwise the insert goes through exactly when every justification has a message; the metadata and height map are written in both cases |
| `DagStorage.Storage.constructor` | block-storage/src/dag/message_state.rs:30-36 | the empty message state, with no metadata, satisfies the invariant |
| `DagStorage.HeightAdded` | block-storage/src/dag/metadata_store.rs:51-73 | adding a block keeps the height map listing exactly the non-failed blocks under their numbers |
| `DagStorage.LatestInserted` | block-storage/src/dag/message_state.rs:74-117 | inserting a message keeps the latest messages the highest of each sender, whether it is promoted or not |
| `DagStorage.LatestChangesIff` | block-storage/src/dag/message_state.rs:74-117 | a message becomes its sender's latest exactly when its sequence number is higher than any before |
| `Rebuild.Create` | casper/src/dag.rs:66-116 | the rebuild in height order succeeds exactly when no non-failed block cites a failed one, and then reaches the consistent state over the non-failed blocks |
| `Rebuild.RunLayered` | casper/src/validate.rs:117-136 | every valid run leaves stores the rebuild can order |
| `Rebuild.RestartRestores` | casper/src/dag.rs:79-92 | after a valid run a successful rebuild restores the messages of all non-failed blocks and every latest message, and the whole message map exactly when no block failed |
| `Rebuild.RestartCanFail` | casper/src/dag.rs:79-92 | a valid run, neglected-block check included, whose stores the rebuild refuses: a good block cites a failed one whose sender holds no stake any more |
| `Rebuild.FailingRestart` | casper/src/dag.rs:66-116 | the rebuild itself fails on those stores |
| `Rebuild.RestartFailsIff` | casper/src/validate.rs:214-234 | after any valid run the rebuild fails exactly when a good block cites a failed one whose sender has no stake in it, so it succeeds while failed senders stay bonded |
| `Rebuild.ValidateHeights` | block-storage/src/dag/metadata_store.rs:76-87 | counting levels finds a gap in the height map exactly when there is one |
| `Rebuild.RunHeightsGapFree` | block-storage/src/dag/metadata_store.rs:76-100 | after a valid run there is none |
| `Pauli.FoldIsShape` | qucalc/src/lib.rs:137-172 | every fold is a unit phase times one of the four Pauli matrices |
| `Pauli.FoldEntries` | qucalc/src/lib.rs:129-172 | its entries never leave -1, 0, 1 |
| `Pauli.FoldConcat` | qucalc/src/lib.rs:160-172 | concatenating histories multiplies their folds |
| `Pauli.ClosedIffParity` | qucalc/src/lib.rs:207-218 | a history is Pauli-closed exactly when its x, y and z twist counts have equal parity |
| `Pauli.ClosedUnderPermutation` | qucalc/src/lib.rs:207-218 | closure does not depend on the order of the twists |
| `Pauli.PhaseByCounting` | qucalc/src/lib.rs:207-218 | the phase of a closed history by counting: half a turn per negative twist and per out-of-order pair of axes, and a quarter turn when each axis is odd |
| `Pauli.ClosedByCounting` | qucalc/src/lib.rs:137-218 | closure and phase together, read off the counts alone |
| `Pauli.AxesInOrderTurn` | qucalc/src/lib.rs:137-218 | x, y and z in order fold to +i times the identity |
| `Pauli.ZfaIff` | qucalc/src/lib.rs:220-231 | ZFA holds exactly when the three axes have equal parity and half of the twists are positive |
| `Pauli.AnnihilateGauge` | qucalc/src/lib.rs:336-351 | the loop computes the left-to-right scan that drops gauge pairs |
| `Pauli.FirstOnlyMeaning` | qucalc/src/lib.rs:334-335 | the documented function cuts the first adjacent gauge pair out and keeps the rest |
| `Pauli.FirstOnlyIff` | qucalc/src/lib.rs:334-351 | the code computes it exactly when no gauge pair lies wholly after another |
| `Pauli.SecondPairDropped` | qucalc/src/lib.rs:336-351 | `+-+-` becomes empty, where the documentation leaves `+-` |
| `Pauli.InnerPairLeaves` | qucalc/src/lib.rs:336-351 | `++--` becomes `+-`: a pair that forms when another goes stays |
| `Pauli.AnnihilationEffect` | qucalc/src/lib.rs:336-351 | each dropped pair shortens the history by two, keeps its balance and adds half a turn |
| `Pauli.AnnihilationKeepsZfa` | qucalc/src/lib.rs:229-231 | dropping pairs keeps ZFA and flips the phase once per pair |
| `Pauli.SynthesisAgrees` | qucalc/src/lib.rs:374-388 | the geometry and the intersection of a synthesis agree on ZFA and have opposite phase |
| `Pauli.AllocateTwists` | qucalc/src/lib.rs:445-452 | two twists per byte, one of each sign, so the result is balanced |
| `Trust.OnePass` | qucalc/src/lib.rs:553-565 | the loop over the ratings computes one relaxation pass |
| `Trust.TrustLevels` | qucalc/src/lib.rs:536-571 | within its passes the relaxation reaches a fixed point, and it is the reference level of every member |
| `Trust.PassCompletes` | qucalc/src/lib.rs:550-569 | each pass completes one more layer of members by how many are above them |
| `Trust.ReferenceSolves` | qucalc/src/lib.rs:529-535 | the reference solves: admins are 5, everyone else the best capped conferral, or 0 |
| `Trust.SolutionUnique` | qucalc/src/lib.rs:529-535 | every solution is the reference |
| `Trust.PositiveLevelBacked` | qucalc/src/lib.rs:529-535 | every positive level is backed by raters of strictly rising level up to an admin |
| `Trust.OrderDoesNotMatter` | qucalc/src/lib.rs:536-571 | levels do not depend on the order or repetition of ratings and admins |
| `Censure.Discredit` | qucalc/src/lib.rs:624-632 | slashing the vouchers of one member step by step keeps the closed form of the levels |
| `Censure.QuorumMeans` | qucalc/src/lib.rs:612 | a count meets the quorum exactly when it is at least two and at least two thirds |
| `Censure.FallsIff` | qucalc/src/lib.rs:580-636 | on clean lists a member falls in a round exactly when at least two, and at least two thirds, of the other members at or above its level censure it |
| `Censure.Censure` | qucalc/src/lib.rs:580-636 | the rounds stop because nobody else meets the quorum, never on the bound; with non-negative levels and stakes the result is the reference set, and levels are 0 for the discredited and otherwise the initial level less all stakes on them, floored at 0 |
| `Censure.ListOrderDoesNotMatter` | qucalc/src/lib.rs:580-636 | who is discredited, and every final level, does not depend on the order of the lists |
| `Censure.EntriesAndMembers` | qucalc/src/lib.rs:613-616 | the count is of list entries; it is the number of censuring members exactly when none is listed twice |
| `Censure.EntriesAndAccusers` | qucalc/src/lib.rs:607-616 | it is the number of eligible censuring members exactly when none is listed twice and the member does not censure itself |
| `Censure.CleanIff` | qucalc/src/lib.rs:613-616 | the lists on which the code counts eligible members, whatever the levels, are those without repeats and self-censure |
| `Censure.CleanListsAreFair` | qucalc/src/lib.rs:573-636 | on such lists the rounds discredit exactly the members the documentation says |
| `Censure.OneMemberDiscredits` | qucalc/src/lib.rs:613-619 | one other member, listed twice or joined by a self-censure, discredits a member of its level, where by the documentation nobody falls in any round |
| `Delegation.Walk` | qucalc/src/lib.rs:509-523 | the walk terminates on every delegation graph and finds the first direct voter among all iterates, or there is none |
| `Delegation.ResolveWeights` | qucalc/src/lib.rs:489-527 | each direct voter weighs the bases of exactly those whose vote counts for it |
| `Delegation.AbstainsIff` | qucalc/src/lib.rs:509-523 | a member abstains exactly when no iterate of its delegation is a direct voter |
| `Delegation.OwnBaseKept` | qucalc/src/lib.rs:505-508 | a direct voter keeps at least its own base |
| `Delegation.TotalWeight` | qucalc/src/lib.rs:489-527 | the weights add up to the bases of all who do not abstain |
| `Delegation.NobodyLeftOut` | qucalc/src/lib.rs:494-500 | everybody whose vote counts for somebody is among the members whose bases are added up |
| `Delegation.BaseLaw` | qucalc/src/lib.rs:502-505 | a base is one plus the level of trust; it is positive exactly when the level is not negative |
| `Tally.CountRound` | qucalc/src/lib.rs:663-669 | one round counts the weight behind every first standing choice |
| `Tally.TallyRanked` | qucalc/src/lib.rs:643-690 | the loop terminates and computes the runoff: a majority wins, a full tie goes to the least name, otherwise all bottom choices fall; there is a winner exactly when the total is positive and some ballot is not empty |
| `Tally.WinnerIff` | qucalc/src/lib.rs:643-690 | with a positive total there is a winner exactly when some ballot is not empty |
| `Tally.RunoffDecides` | qucalc/src/lib.rs:661-690 | every round leaves a live choice, and the winner is on a ballot and was never eliminated |
| `Tally.OneMajority` | qucalc/src/lib.rs:673-680 | with non-negative weights at most one choice passes the majority test in any round |
| `Tally.MajorityWins` | qucalc/src/lib.rs:673-680 | and it wins the runoff from that round on, so a first-preference majority wins |
| `Tally.CoalitionWinsIff` | qucalc/src/lib.rs:661-690 | when more than half the weight ranks a coalition of choices first, the winner is in it exactly when the rounds never eliminate it whole and it loses no full tie |
| `Tally.MajorityCoalitionWins` | qucalc/src/lib.rs:661-690 | and always when no two separate groups of voters weigh the same |
| `Tally.SplitCoalitionLoses` | qucalc/src/lib.rs:685-688 | three for a over b, three for b over a and four for c: a and b fall together and c wins against six of ten |
| `NativeState.EncodeBonds` | rholang/src/native_state.rs:42-49 | the encoding is in strictly ascending key order and decodes to the map |
| `NativeState.DecodeBonds` | rholang/src/native_state.rs:52-70 | the chunk loop computes the reference decoder, refusing a ragged length or a negative stake |
| `NativeState.EncodingCanonical` | rholang/src/native_state.rs:41-49 | a bonds map has one ascending encoding |
| `NativeState.NativeSystemState.PreCharge` | rholang/src/native_state.rs:165-190 | over the bytes, the operation refines the ledger step of two maps, outcome included |
| `NativeState.NativeSystemState.Slash` | rholang/src/native_state.rs:205-210 | the same |
| `NativeState.NativeSystemState.Bond` | rholang/src/native_state.rs:215-242 | the same |
| `NativeState.NativeSystemState.Withdraw` | rholang/src/native_state.rs:247-262 | the same, with the bond removed before the new balance is looked at |
| `NativeState.NativeSystemState.FindOrCreateVault` | rholang/src/native_state.rs:135-140 | the same |
| `NativeState.NativeSystemState.SetBonds` | rholang/src/native_state.rs:95-97 | writing the bonds replaces the bonds map and nothing else |
| `NativeState.NativeSystemState.SetVaultBalance` | rholang/src/native_state.rs:124-130 | writing a balance changes one vault and nothing else |
| `Ledger.StepConserves` | rholang/src/native_state.rs:165-262 | every operation lowers vaults plus stakes by exactly its outflow: the charge, the slashed stake, or a stake lost in a failed withdrawal; bond and a completed withdrawal conserve |
| `Ledger.RunConserves` | rholang/src/native_state.rs:165-262 | over every run, the total and everything taken out add up to the initial total |
| `Ledger.SupplyNeverGrows` | rholang/src/native_state.rs:165-262 | without negative charges the total never grows and never goes negative |
| `Ledger.BoundedRunConserves` | rholang/src/native_state.rs:165-262 | over every run without negative charges from a supply within 64 bits, the total plus completed charges plus slashed stakes equals the start, and every withdrawal of a bonded stake completes |
| `Ledger.OthersUntouched` | rholang/src/native_state.rs:165-262 | an operation leaves every other balance and stake alone |
| `Ledger.RefusalChangesNothing` | rholang/src/native_state.rs:165-262 | a user-level failure changes nothing |
| `Ledger.FailureLosesStakeIff` | rholang/src/native_state.rs:247-262 | a failed operation changes the ledger exactly when a bonded validator withdraws into a vault that overflows |
| `Ledger.FullVaultLosesStake` | rholang/src/native_state.rs:247-262 | a stake of 1 beside a vault of 2^63-1 is lost |
| `Ledger.WithdrawCompletes` | rholang/src/native_state.rs:247-262 | with the supply within 64 bits, a withdrawal completes exactly when the validator is bonded |
| `Ledger.ChargeCompletes` | rholang/src/native_state.rs:165-190 | a charge completes exactly when it is 0 or the key has an address whose balance covers it and whose rest fits; then that balance falls by it; a shortfall is refused |
| `Ledger.BondCompletes` | rholang/src/native_state.rs:215-242 | a bond completes exactly when the validator is not bonded and its vault covers the stake; then the stake moves; otherwise it is refused |
| `Ledger.WithdrawMoves` | rholang/src/native_state.rs:247-262 | a withdrawal completes exactly when the validator is bonded and its vault has room; then the stake moves back |
| `Ledger.SlashAndCreate` | rholang/src/native_state.rs:205-210 | slashing always completes and leaves no bond; creating a vault always completes and changes no balance |
| `Ledger.BondThenWithdraw` | rholang/src/native_state.rs:215-262 | bonding and withdrawing gives back every balance and bond |
| `Codecs.VarintEncode` | rholang/src/merging.rs:177-185 | the loop computes the seven-bit encoding |
| `Codecs.VarintSelfDelimiting` | rholang/src/merging.rs:177-185 | two varints followed by anything agree only if they are equal |
| `Codecs.ZigzagRoundTrip` | rholang/src/merging.rs:172-174 | zigzag is a bijection of 64-bit integers onto unsigned ones, with the sign in the lowest bit |
| `Codecs.VarintRoundTrip` | rholang/src/merging.rs:177-185 | reading groups of seven bits, lowest first, gives the number back and leaves what follows |
| `Codecs.VlongRoundTrip` | rholang/src/merging.rs:188-190 | the same for a zigzag varint |
| `Codecs.KeyRoundTripIff` | rholang/src/merging.rs:200-218 | a key reads back as its hash, creator and number exactly when the creator is shorter than 2^16 bytes |
| `Codecs.SeedRoundTrip` | casper/src/block_random_seed.rs:74-80 | an encoded seed reads back as its shard, number, sender and state hash |
| `Bytes.BigEndianDigit` | rholang/src/merging.rs:192-198 | the most significant byte comes first |
| `Bytes.LittleEndianDigit` | rholang/src/native_state.rs:42-49 | the least significant byte comes first |
| `Codecs.VlongLength` | rholang/src/merging.rs:172-190 | a zigzag varint of a 64-bit integer takes one to ten bytes |
| `Codecs.MergeableKeyInjective` | rholang/src/merging.rs:200-218 | the store key is injective for all creators, even those longer than the 16-bit length can say |
| `Codecs.EncodeDataSeq` | rholang/src/merging.rs:221-237 | the encoder loops compute the reference encoding |
| `Codecs.DecodeDataSeq` | rholang/src/merging.rs:239-278 | the decoder loop computes the reference decoder, on every byte string |
| `Codecs.DataRoundTripIff` | rholang/src/merging.rs:221-278 | decoding inverts encoding exactly on data whose counts fit 16 bits |
| `Codecs.SeedInjective` | casper/src/block_random_seed.rs:74-80 | the seed encoding is injective wherever it succeeds |
| `Codecs.SeedEncodesIff` | casper/src/block_random_seed.rs:162-169 | it fails exactly on a component longer than 255 bytes |
| `NumberDiffs.CalculateDiffs` | rholang/src/merging.rs:296-315 | each difference is against the latest value recorded before, or the initial one |
| `NumberDiffs.DiffsTelescope` | rholang/src/merging.rs:296-315 | the differences of a channel sum to its last value less its initial one, up to 64-bit wrapping |
| `NumberDiffs.MergeRestoresIff` | rholang/src/merging.rs:79-103 | merging all differences onto the initial value gives back the last one exactly when it is a 64-bit step away, and is refused otherwise |

## Left out

- `locally_free` sets of terms: equality ignores them, so the term datatypes do not carry them.
- Source positions and the payloads of error messages: only which error is kept.
- Lexing and parsing: the model starts from source trees; a fresh identifier is a constructor of its own because its `$` cannot be lexed.
- NormalizerReads.ProcReads: the forms that stand for others (synchronous sends, complex sources, concurrent and sequential lets, choices, several receipts) read as the forms of `Desugar` they stand for, which `Desugared` describes; that the made-up names in them differ from all others is not part of a reading.
- NormalizerReads.ProcReads: says nothing about which programs are refused; `CorePrograms.ProcCompiles` gives the programs that are not. `Refusals` gives families that are refused; which of several errors is reported first is left out.
- CorePrograms.ProcCompiles: leaves out joins of several binds, collection remainders, nested patterns, references out of patterns, types and logical connectives.
- Meaning.ReadingKeepsMeaning: covers literals, variables, `not`, negation and the binary operators on ground values; `matches`, `%%`, `--`, methods, collections, terms as values and the cost of evaluation are left out.
- Numeric literals: only an optional sign and decimal digits are read.
- List loops of the normalizer and the in-place sort of the sorter: modelled as recursive functions over values.
- `ParSet` and `ParMap` construction, which sorts and removes duplicates: sets and maps are lists of elements here, so nothing is said about deduplication.
- NormalizerScope.PlainProgramsCompile: leaves out programs with negation, disjunction or `matches` outside patterns; `NormalizerScope.NotClosedIff` covers those by their normalized term.
- DagStorage.Storage.Insert: does not model fringes, finalization, the block-index cache, the deploy index and the deploy pool, nor the check that fringe blocks have messages.
- Replay, `bonds_cache`, signature, hash and format checks: a run takes the bonds of a block as given.
- Hashes, signatures, base58 addresses and their derivation from keys: opaque identities, and an arbitrary function from 65-byte keys to addresses; store leaves are taken to be distinct.
- Overflow of block and sequence numbers, trust levels, stakes and tallied weights: unbounded integers there; the ledger, the codecs and the number channels model 64 bits.
- Zigzag bit operations: given by their arithmetic meaning.
- Summing of channel differences (`casper/src/merging.rs:744-749`): taken to wrap, as an optimised build does; a debug build stops on overflow.
- RepeatSafety.NoDeployRepeats: assumes that two deploys with the same key have the same validity height, which signatures over the deploy data give and the model does not derive.
- Accumulator.AccumulatorLawIff: leaves out accumulators that are empty but for a set connective flag; there the law also depends on whether the target sets the flag itself.
- Order of names: members and options are numbers in the order of the source's strings.
- Asynchrony and locking: each operation is one step on the maps it reads and writes.
- Conflict resolution between merged branches and merging of random generators: they work on event logs and generator states that no model here carries.
- Approval tallies (one weighted sum), registry leaves (one lookup), census loading (file reading), refunds and epoch closing (without effect in the source).
