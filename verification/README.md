# The SQL parser of WCDBOptimizedSQLCipher, modelled and proved in Dafny

This project models three parts of the vendored SQL library and proves what they are for.

**The push-down engine of `parse.c`** (`Grammars`, `Automata`, `Runs`, `Termination`, `Acyclic`, `PlainLr`,
`PackedTables`, `Engine`, `SemanticValues`, `ExprListFragment`, `VtabFragment`, `SelectFragment`, `GrowingStack`). The
engine is parametric in its tables. An automaton annotates each state with items and is `Valid` when every item with its
dot past a symbol comes from an item of each predecessor, every item with its dot at the left has a goto, every reduce
entry is vouched for by an item, and a fused shift-reduce leaves something to reduce. From that, for every grammar,
every token string and every stack depth:

* each turn keeps the invariant that the trees on the stack are instances of their rules and spell exactly the tokens
  shifted; an accepted run is a derivation of the whole input from the start symbol, up to token fallback, the
  wildcard, and the unit rules that the generator optimised out of the tables;
* gotos never miss, no table read leaves its array, the fallback loop runs at most twice, acceptance leaves the base
  entry alone on the stack;
* the compressed table answers like the sparse one though it checks only the lookahead tag and never the state;
* the machine with fused shift-reduces runs in step with the textbook machine that has none;
* the bounded stack takes the steps of the unbounded one until the first that needs one entry more, and overflows
  exactly there; over an acyclic grammar every run on a bounded stack stops, within an explicit number of turns a token;
* the parser object, with its mutable array, follows that machine turn by turn, through the driver loop, which may also
  stop it between tokens: a finished command does that, and so do errors, interrupts and a full memory. Freeing it and a
  shift that overflows release each stacked value once; an overflow by an empty rule misses exactly the value on top.

`ExprListFragment` is a concrete automaton with its packed table (the `exprlist`/`nexprlist` rules, with token fallback,
fused actions and an elided unit rule) that meets every condition, so none of this is vacuous; `VtabFragment`
(`vtabarglist`, with a wildcard) and `SelectFragment` (`SELECT *`) are two more.

**The reduce actions that build trees** (`ExprTrees`, `ExprMeaning`, `ExprSpans`, `ExprBuild`, `CompoundSelect`,
`FromList`, `TriggerSteps`, `FkActions`), modelled in place on the objects they mutate: expression desugaring keeps
three-valued meaning; spans cover the expression's tokens; the flat CASE list can be taken apart again; the compound
SELECT chain, its back links, flags and limit error; nested FROM lists with the memory they own; the trigger step queue;
the foreign-key action word.

**The keyword recogniser of `keywordhash.h`** (`KeywordHash`, `KeywordData`): the hash lookup agrees with a plain
case-insensitive search, for any valid tables and for the shipped ones, whose 124 keywords are proved distinct and are
spelled out with their token codes.

The expression model has a form for each of the rules 150 to 202, 247 and 248: one-token terms (151-153, 156-158, 164),
parentheses (150), dotted names (154, 155), variables and registers (159), COLLATE (160), CAST (161), calls with
DISTINCT or a star (162, 163), row values (165), binary operators (166-173), LIKE (176, 177), ISNULL and IS (178-181),
prefix operators (182-185), BETWEEN (188), IN over a list, a subquery or a table (191, 193, 194), scalar subqueries and
EXISTS (192, 195), CASE (196-202), and RAISE (247, 248).

## What the proofs brought to light

* An empty-rule reduce that overflows calls `yyStackOverflow` without having advanced the top, and its opening decrement
  then passes over the value on top. A clean-up is missed if and only if a full stack, with a value on top that has one,
  looks up a reduce by an empty rule (`Engine.CleanUpMissedExactly`); `SelectFragment.FromListIsNeverDeleted` is such a
  run by rules of the SQL grammar.
* Every symbol's clean-up releases just what its semantic value owns, but for the value of LIMIT, which owns two
  expressions and has none (`SemanticValues.CleanUpFitsValue`). No run ever has to release it, provided that every goto
  on it is a fused shift-reduce. (`SemanticValues.FusedIsNeverReleased`)
* Without a bound on the stack termination is false: a valid automaton over an acyclic grammar can push for ever by an
  empty rule. (`GrowingStack.NeverStops`)
* The span of `x IN t(args)` stops at the table name, so the arguments lie outside it; the span of every other
  expression whose last operand is not of that form covers its tokens exactly. (`ExprSpans.EndIsLast`,
  `ExprSpans.ArgumentsLieOutside`)
* A parenthesised lone source that is not simply taken over is moved with its names or subquery only. Its alias, its
  index hint and the arguments of a table function are lost: each of them exactly when a lone source that carries it
  stands in parentheses that follow a join or carry an alias, ON or USING. (`FromList.LeavesAreConserved`, and at two
  texts `FromList.CallIsLost` and `FromList.AliasAndHintAreLost`)
* The keyword comparison clears one bit, so a DEL character passes for an underscore; the recogniser differs from the
  case-insensitive search for exactly the words that hold a DEL and are a keyword with each DEL read as an underscore.
  The tokenizer never hands over a DEL. (`KeywordHash.SearchesDifferExactly`)

## Model

| member | source | states |
|---|---|---|
| Grammars.TreeIsDerivation | Floral/Pods/WCDBOptimizedSQLCipher/parse.c:3955-3972 | a tree whose nodes are instances of their rules, as the reduces build them, witnesses a derivation of its tokens from the symbol wanted, by grammar rewriting alone |
| Grammars.StandsForDerives | Floral/Pods/WCDBOptimizedSQLCipher/parse.c:3895-3946 | a symbol accepted in place of another through optimised-out unit rules is derived by it |
| Automata.ItemDescends | Floral/Pods/WCDBOptimizedSQLCipher/parse.c:3955-3958 | an item held anywhere on a reachable stack finds the symbols left of its dot on the stack, in order, above true states |
| Automata.GotoNeverMisses | Floral/Pods/WCDBOptimizedSQLCipher/parse.c:1784-1809 | whenever a reduce is called for, its right-hand side is on the stack and the state uncovered has an entry for the left-hand side |
| Automata.TopIsReadable | Floral/Pods/WCDBOptimizedSQLCipher/parse.c:1721-1730 | the action lookup is always defined, returns no action out of range, and a reduce it returns is ready |
| Automata.ActionIsFirst | Floral/Pods/WCDBOptimizedSQLCipher/parse.c:1736-1774 | a true state's action is that of the first of the token, its fallback and the wildcard for which the row has one, else the default |
| Automata.ShiftKeeps | Floral/Pods/WCDBOptimizedSQLCipher/parse.c:1858-1893 | a shift keeps the stack invariant and adds exactly its token, under its own code even when it moved by fallback; the end marker is never shifted |
| Automata.ReduceKeeps | Floral/Pods/WCDBOptimizedSQLCipher/parse.c:3955-3972 | a reduce keeps the invariant and the yield and nets the right length, or accepts with the whole yield in one tree of the start symbol and only the base left |
| Automata.AcceptOnlyAtEnd | Floral/Pods/WCDBOptimizedSQLCipher/parse.c:4022-4038 | only the end marker accepts |
| Automata.BaseIsUnique | Floral/Pods/WCDBOptimizedSQLCipher/parse.c:4033-4033 | state 0 occurs at the bottom only, so the accept assertion holds |
| Runs.RunsAccount | Floral/Pods/WCDBOptimizedSQLCipher/parse.c:4089-4201 | after any number of turns, at any depth, stack yield plus unread input is the whole input; after an overflow what is unread is still the end of the input |
| Runs.AcceptedIsSentence | Floral/Pods/WCDBOptimizedSQLCipher/parse.c:4060-4201 | an accepted run read the whole input, and the grammar derives it from the start symbol |
| Runs.BoundedRefinesUnbounded | Floral/Pods/WCDBOptimizedSQLCipher/parse.c:1864-1883 | the bounded run equals the unbounded one as long as that stays within the depth, and has overflowed if and only if it did not |
| Runs.OverflowAccounts | Floral/Pods/WCDBOptimizedSQLCipher/parse.c:1864-1883 | a run that overflowed did so from a full stack whose trees spell what was read, and read nothing more |
| Runs.StepRefines | Floral/Pods/WCDBOptimizedSQLCipher/parse.c:2262-2283 | one turn overflows exactly when the unbounded turn needs an entry beyond the depth, by either check |
| Runs.RestIsUnread | Floral/Pods/WCDBOptimizedSQLCipher/parse.c:4060-4066 | a run that is still on a token does not depend on the tokens behind it, so feeding one token at a time is the same run |
| Termination.EmptyTreeIsNullable | Floral/Pods/WCDBOptimizedSQLCipher/parse.c:3955-3957 | a tree built from no tokens has a nullable symbol at its root |
| Termination.ReduceComesCloser | Floral/Pods/WCDBOptimizedSQLCipher/parse.c:3955-3972 | every reduce on a bounded stack makes a lexicographic measure of the stack smaller |
| Termination.TokenIsDealtWith | Floral/Pods/WCDBOptimizedSQLCipher/parse.c:4089-4201 | from any reachable configuration finitely many turns consume the token or stop the run |
| Termination.RunsStop | Floral/Pods/WCDBOptimizedSQLCipher/parse.c:4089-4201 | every run over an acyclic grammar on a bounded stack stops |
| Termination.TokenIsDealtWithin | Floral/Pods/WCDBOptimizedSQLCipher/parse.c:4089-4201 | the number of turns a token takes is bounded by an explicit function of the depth and the ranks |
| Termination.RunsStopWithin | Floral/Pods/WCDBOptimizedSQLCipher/parse.c:4089-4201 | a whole run stops within that many turns for each token still to come |
| Acyclic.RankFalls | Floral/Pods/WCDBOptimizedSQLCipher/parse.c:3955-3957 | ranks fall along every derivation from one symbol to another |
| Acyclic.CertifiedIsAcyclic | Floral/Pods/WCDBOptimizedSQLCipher/parse.c:3955-3957 | in a grammar with a ranking no symbol derives itself |
| PlainLr.OnlyTopIsPending | Floral/Pods/WCDBOptimizedSQLCipher/parse.c:1884-1888 | only the top entry of a reachable stack may hold a pending reduce, and its rule has something to reduce |
| PlainLr.FusedRefinesPlain | Floral/Pods/WCDBOptimizedSQLCipher/parse.c:351-358 | one turn of the fused machine is one turn of the textbook machine, entry by entry |
| PlainLr.RunsAgree | Floral/Pods/WCDBOptimizedSQLCipher/parse.c:3959-3966 | whole runs of the two machines agree in stacks, trees and verdict |
| PackedTables.SharedOffsetSharedRow | Floral/Pods/WCDBOptimizedSQLCipher/parse.c:367-396 | states that share an offset share their row |
| PackedTables.NoConfusion | Floral/Pods/WCDBOptimizedSQLCipher/parse.c:367-396 | two states that read one slot look for one symbol, at one offset, in one and the same row |
| PackedTables.OwnRowsExactly | Floral/Pods/WCDBOptimizedSQLCipher/parse.c:367-396 | no state reaches a foreign slot if and only if every slot reached belongs to some row and states that share an offset share a row |
| PackedTables.FindShiftAction | Floral/Pods/WCDBOptimizedSQLCipher/parse.c:1721-1778 | the lookup returns the row's entry for the token, else for its fallback, else, for any token but the end marker and whether or not it has a fallback, for the wildcard, else the default; in at most two rounds and inside the tables |
| PackedTables.FindReduceAction | Floral/Pods/WCDBOptimizedSQLCipher/parse.c:1784-1809 | the goto lookup returns the row's entry and its assertions hold |
| Engine.ReleasedOnce | Floral/Pods/WCDBOptimizedSQLCipher/parse.c:1669-1683 | popping to the base releases each entry above it once, with the clean-up its symbol selects |
| Engine.OverflowForgetsTop | Floral/Pods/WCDBOptimizedSQLCipher/parse.c:1814-1822 | an overflow comes from a full stack and pops everything if and only if it came from a shift; otherwise exactly the top entry is passed over |
| Engine.OverflowsExactly | Floral/Pods/WCDBOptimizedSQLCipher/parse.c:1864-1883 | a turn overflows if and only if the stack is full and the action looked up is a shift or a reduce by an empty rule |
| Engine.CleanUpMissedExactly | Floral/Pods/WCDBOptimizedSQLCipher/parse.c:2270-2272 | a clean-up is missed if and only if a full stack, whose top value has one, looks up a reduce by an empty rule; it is then that value's and no other |
| SemanticValues.CleanUpFitsValue | Floral/Pods/WCDBOptimizedSQLCipher/parse.c:1551-1662 | by the type of each symbol's semantic value: its clean-up releases just what such a value owns if and only if the symbol is not `limit_opt`; terminals have none |
| SemanticValues.FusedIsNeverReleased | Floral/Pods/WCDBOptimizedSQLCipher/parse.c:3032-3052 | a value that is only put on the stack with a reduce pending is never released, neither by the turn that ends a run, nor by freeing the parser after it or between two tokens |
| Engine.Parser.Alloc | Floral/Pods/WCDBOptimizedSQLCipher/parse.c:1514-1540 | a new parser is valid with the base entry alone, on an array of the stack depth, or of 100 for a stack that grows |
| Engine.Parser.PopParserStack | Floral/Pods/WCDBOptimizedSQLCipher/parse.c:1669-1683 | one pop releases the top value with its own clean-up |
| Engine.Parser.Free | Floral/Pods/WCDBOptimizedSQLCipher/parse.c:1693-1708 | freeing releases every live entry once and leaves the base |
| Engine.Parser.StackOverflow | Floral/Pods/WCDBOptimizedSQLCipher/parse.c:1814-1834 | the opening decrement, the pops and the message, on whatever the caller left |
| Engine.Parser.GrowStack | Floral/Pods/WCDBOptimizedSQLCipher/parse.c:1467-1492 | growing to twice the size plus 100 keeps the contents |
| Engine.Parser.Shift | Floral/Pods/WCDBOptimizedSQLCipher/parse.c:1858-1893 | the stack gains one entry, or is released down to the base with a report, exactly at the depth |
| Engine.Parser.MakeRoom | Floral/Pods/WCDBOptimizedSQLCipher/parse.c:2262-2283 | an empty-rule reduce has room, or overflows and releases all but the top |
| Engine.Parser.TakeGoto | Floral/Pods/WCDBOptimizedSQLCipher/parse.c:3955-3972 | the array after a reduce is the machine's stack after it, or the tree is accepted with the base entry alone left |
| Engine.Parser.Reduce | Floral/Pods/WCDBOptimizedSQLCipher/parse.c:2236-2283 | a whole reduce on the array follows the machine, overflow included |
| Engine.Parser.TakeTurn | Floral/Pods/WCDBOptimizedSQLCipher/parse.c:4089-4201 | one turn of the loop on the object is one turn of the machine, with what it reports and releases |
| Engine.Parser.Parse | Floral/Pods/WCDBOptimizedSQLCipher/parse.c:4060-4201 | dealing with one token ends, after turns of the machine that have shifted it, accepted, failed or overflowed |
| Engine.NextToken | Floral/Pods/WCDBOptimizedSQLCipher/src/tokenize.c:505-525 | the driver's choice of the next token: the text's, then a semicolon unless one came last, then the end marker |
| Engine.HandedOverInFull | Floral/Pods/WCDBOptimizedSQLCipher/src/tokenize.c:505-525 | what is handed over in full: the tokens, code 1 unless it came last, and code 0, both with the text scanned last |
| Engine.FeedAll | Floral/Pods/WCDBOptimizedSQLCipher/src/tokenize.c:505-542 | the driver loop hands over tokens until the machine's run has ended or the host has it stop between tokens, as after every finished command, and it stops for no other reason |
| Engine.RunParser | Floral/Pods/WCDBOptimizedSQLCipher/src/tokenize.c:476-552 | a whole statement: either the machine's run ended, and reports and releases are those of its last turn and of what was left on the stack, or the host stopped it right after a shift, and then nothing was reported or accepted, what was stacked spells the tokens handed over, and just that was released; whatever was accepted spells the statement and is a sentence |
| Engine.AcceptedStatement | Floral/Pods/WCDBOptimizedSQLCipher/src/tokenize.c:505-542 | a tree accepted after the driver's semicolon and end marker spells the closed statement, which the grammar derives |
| ExprListFragment.IsValid | Floral/Pods/WCDBOptimizedSQLCipher/parse.c:3525-3534 | a concrete automaton for expression lists is valid |
| ExprListFragment.IsPacked | Floral/Pods/WCDBOptimizedSQLCipher/parse.c:367-396 | its overlaid table is a packing with the compiled guards sufficient |
| ExprListFragment.IsAcyclic | Floral/Pods/WCDBOptimizedSQLCipher/parse.c:3525-3534 | its grammar is acyclic |
| ExprListFragment.AcceptsAKeyword | Floral/Pods/WCDBOptimizedSQLCipher/parse.c:1736-1751 | a keyword is read as an identifier by fallback and the run accepts with the expected tree |
| VtabFragment.IsValid | Floral/Pods/WCDBOptimizedSQLCipher/parse.c:1452-1454 | an automaton for the arguments of a virtual table, with wildcard entries, is valid |
| VtabFragment.TakesAnyToken | Floral/Pods/WCDBOptimizedSQLCipher/parse.c:1758-1774 | in it every token but the comma is taken as the wildcard, and the run accepts with the expected tree |
| VtabFragment.TakesKey | Floral/Pods/WCDBOptimizedSQLCipher/parse.c:1736-1774 | so KEY is taken, though it falls back to an identifier for which no state has an action |
| GrowingStack.NeverStops | Floral/Pods/WCDBOptimizedSQLCipher/parse.c:1467-1492 | on a growing stack a valid automaton over an acyclic grammar need not stop |
| GrowingStack.BoundedOverflows | Floral/Pods/WCDBOptimizedSQLCipher/parse.c:2270-2272 | the same automaton on a bounded stack overflows after as many turns as it has entries |
| GrowingStack.ListIsNeverDeleted | Floral/Pods/WCDBOptimizedSQLCipher/parse.c:2270-2272 | at that overflow the expression list on top of the full stack misses its clean-up |
| SelectFragment.FromListIsNeverDeleted | Floral/Pods/WCDBOptimizedSQLCipher/parse.c:2270-2272 | by rules of the SQL grammar: `SELECT *` on a stack of five overflows at the absent WHERE clause and misses the clean-up of the FROM list |
| SelectFragment.IsValid | Floral/Pods/WCDBOptimizedSQLCipher/parse.c:2740-2744 | the automaton for that statement is valid |
| SelectFragment.LimitIsFused | Floral/Pods/WCDBOptimizedSQLCipher/parse.c:2740-2744 | in that automaton the value of LIMIT is only put on the stack with a reduce pending |
| KeywordHash.SearchFindsLast | Floral/Pods/WCDBOptimizedSQLCipher/keywordhash.h:138-141 | what the reference search returns: an equal keyword with none equal after it, or nothing when none is equal |
| KeywordHash.SameWordSameBucket | Floral/Pods/WCDBOptimizedSQLCipher/keywordhash.h:137-144 | a word that passes the comparison with a keyword hashes to the keyword's bucket |
| KeywordHash.BucketIgnoresCase | Floral/Pods/WCDBOptimizedSQLCipher/keywordhash.h:138-138 | the bucket does not depend on letter case |
| KeywordHash.SameIsFoldedEquality | Floral/Pods/WCDBOptimizedSQLCipher/keywordhash.h:143-145 | the masked comparison is equality up to case, but for DEL in place of an underscore |
| KeywordHash.Compare | Floral/Pods/WCDBOptimizedSQLCipher/keywordhash.h:141-149 | the inner loop decides whether the word is the keyword, inside the pool |
| KeywordHash.WordsAreUnique | Floral/Pods/WCDBOptimizedSQLCipher/keywordhash.h:139-140 | keywords that differ along each chain are all different |
| KeywordHash.FirstHitIsSearch | Floral/Pods/WCDBOptimizedSQLCipher/keywordhash.h:139-149 | the first hit on the chain is what the plain search finds, and running off the chain means nothing |
| KeywordHash.KeywordCode | Floral/Pods/WCDBOptimizedSQLCipher/keywordhash.h:135-277 | the hash lookup equals the plain search for every word and writes the code only on a hit |
| KeywordHash.SearchIsFoldedSearch | Floral/Pods/WCDBOptimizedSQLCipher/keywordhash.h:143-145 | for words without DEL it is the case-insensitive search |
| KeywordHash.SearchFindsKeyword | Floral/Pods/WCDBOptimizedSQLCipher/keywordhash.h:135-277 | with distinct keywords the search finds the keyword equal to the word, whichever it is |
| KeywordHash.DelPassesForUnderscore | Floral/Pods/WCDBOptimizedSQLCipher/keywordhash.h:143-145 | the exception is real for every keyword with an underscore |
| KeywordHash.SearchesDifferExactly | Floral/Pods/WCDBOptimizedSQLCipher/keywordhash.h:143-145 | the recogniser's search and the case-insensitive search differ for exactly the words that hold a DEL and are a keyword with each DEL read as an underscore |
| KeywordData.SqlIsValid | Floral/Pods/WCDBOptimizedSQLCipher/keywordhash.h:27-107 | the shipped pool, heads, links, lengths and offsets are valid tables |
| KeywordData.SqlChainsDiffer | Floral/Pods/WCDBOptimizedSQLCipher/keywordhash.h:72-107 | no two shipped keywords on one chain are equal, hence none at all |
| KeywordData.Names0 | Floral/Pods/WCDBOptimizedSQLCipher/keywordhash.h:108-134 | keywords 0 to 20 by spelling, each with its token code |
| KeywordData.Names1 | Floral/Pods/WCDBOptimizedSQLCipher/keywordhash.h:108-134 | keywords 21 to 41 by spelling, each with its token code |
| KeywordData.Names2 | Floral/Pods/WCDBOptimizedSQLCipher/keywordhash.h:108-134 | keywords 42 to 62 by spelling, each with its token code |
| KeywordData.Names3 | Floral/Pods/WCDBOptimizedSQLCipher/keywordhash.h:108-134 | keywords 63 to 83 by spelling, each with its token code |
| KeywordData.Names4 | Floral/Pods/WCDBOptimizedSQLCipher/keywordhash.h:108-134 | keywords 84 to 104 by spelling, each with its token code |
| KeywordData.Names5 | Floral/Pods/WCDBOptimizedSQLCipher/keywordhash.h:108-134 | keywords 105 to 123 by spelling, each with its token code |
| KeywordData.Sqlite3KeywordCode | Floral/Pods/WCDBOptimizedSQLCipher/keywordhash.h:278-282 | a word that spells one of the named keywords in any letter case gets that keyword's code; one that spells none and has no DEL gets 55, the code of an identifier |
| CompoundSelect.DoubleLinkSelect | Floral/Pods/WCDBOptimizedSQLCipher/parse.c:90-105 | on a chain of two or more `pNext` becomes the inverse of `pPrior`, all are flagged, and the limit error is raised exactly when due; a lone term is untouched |
| CompoundSelect.ClearMultiValue | Floral/Pods/WCDBOptimizedSQLCipher/parse.c:2719-2719 | clearing the head's flag changes nothing else the chain stands for |
| CompoundSelect.OneSelect | Floral/Pods/WCDBOptimizedSQLCipher/parse.c:2740-2745 | a SELECT core starts a chain of one plain term, whose flags say DISTINCT, ALL or neither, as written |
| CompoundSelect.FirstRow | Floral/Pods/WCDBOptimizedSQLCipher/parse.c:2774-2780 | the first VALUES row starts a chain of one row without the multi-value flag |
| CompoundSelect.AddRow | Floral/Pods/WCDBOptimizedSQLCipher/parse.c:2781-2796 | a further row heads the chain and alone carries the flag |
| CompoundSelect.LinkBuilt | Floral/Pods/WCDBOptimizedSQLCipher/parse.c:90-105 | double-linking keeps the terms, operators and flags, and errs if and only if the limit is positive, exceeded, and the chain is not pure VALUES |
| CompoundSelect.Wrap | Floral/Pods/WCDBOptimizedSQLCipher/parse.c:2708-2714 | several rows on the right become one wrapped, double-linked term |
| CompoundSelect.SetOperator | Floral/Pods/WCDBOptimizedSQLCipher/parse.c:2703-2726 | a set operator adds exactly one term at the head and clears the flag on both sides |
| CompoundSelect.BuildSelect | Floral/Pods/WCDBOptimizedSQLCipher/parse.c:2689-2806 | any compound that can be written: terms in reverse order, DISTINCT or ALL of each, operators, links, flags, `hasCompound` and the limit error |
| CompoundSelect.ChainLength | Floral/Pods/WCDBOptimizedSQLCipher/parse.c:2703-2726 | how long the chain is, and which term and operator each position holds |
| ExprMeaning.ShortCutIsSound | Floral/Pods/WCDBOptimizedSQLCipher/src/expr.c:875-904 | replacing a conjunction with a constant false side by 0 keeps its value, even next to NULL |
| ExprMeaning.FoldsExactly | Floral/Pods/WCDBOptimizedSQLCipher/src/expr.c:875-904 | a conjunction is replaced by 0 if and only if a side is the number zero under any signs, and nothing else ever is |
| ExprMeaning.InIsMembership | Floral/Pods/WCDBOptimizedSQLCipher/parse.c:3392-3446 | IN and NOT IN over no, one or many scalars are three-valued membership under any equality |
| ExprMeaning.IsIsNullSafe | Floral/Pods/WCDBOptimizedSQLCipher/parse.c:3338-3353 | IS and IS NOT are null-safe equality, also when turned into unary tests |
| ExprMeaning.CaseMeans | Floral/Pods/WCDBOptimizedSQLCipher/parse.c:3489-3524 | reading the flat list by pairs gives the first WHEN that applies, else ELSE, else NULL |
| ExprMeaning.BracketMeans | Floral/Pods/WCDBOptimizedSQLCipher/parse.c:3227-3274 | calls, row values, subqueries, EXISTS and RAISE keep their meaning, a subquery's expressions in each of its rows |
| ExprMeaning.TreeMeans | Floral/Pods/WCDBOptimizedSQLCipher/parse.c:3135-3524 | for every nesting of the expression forms and every environment the tree evaluates as the text means, dotted names being read as name resolution reads them |
| ExprMeaning.CaseRoundTrip | Floral/Pods/WCDBOptimizedSQLCipher/parse.c:3489-3518 | odd length if and only if ELSE is present; splitting by parity recovers the pairs and the ELSE |
| ExprSpans.StartIsFirst | Floral/Pods/WCDBOptimizedSQLCipher/parse.c:3135-3524 | every span starts at the first token of the expression |
| ExprSpans.EndIsLast | Floral/Pods/WCDBOptimizedSQLCipher/parse.c:3135-3524 | every span ends at its last token's end if and only if the last operand is not a table called with arguments, and never later |
| ExprSpans.StartBeforeEnd | Floral/Pods/WCDBOptimizedSQLCipher/parse.c:3135-3524 | no span is empty or reversed |
| ExprSpans.SpansNest | Floral/Pods/WCDBOptimizedSQLCipher/parse.c:3135-3524 | a stretch of tokens that is an expression and does not reach past the span of the whole has its span inside; no stretch reaches past unless the whole ends in a table called with arguments |
| ExprSpans.PartsNest | Floral/Pods/WCDBOptimizedSQLCipher/parse.c:3135-3524 | the span of an expression at any depth inside another lies inside its span, or wholly past its end when the whole ends in a table called with arguments |
| ExprSpans.SpansDisjoint | Floral/Pods/WCDBOptimizedSQLCipher/parse.c:3135-3524 | expressions that follow one another have disjoint spans |
| ExprSpans.ArgumentsLieOutside | Floral/Pods/WCDBOptimizedSQLCipher/parse.c:3466-3477 | the arguments of the table form of IN lie past the end of its span |
| ExprBuild.ExprSpan.SpanSet | Floral/Pods/WCDBOptimizedSQLCipher/parse.c:112-115 | start of the first token, end of the last |
| ExprBuild.ExprSpan.SpanBinaryExpr | Floral/Pods/WCDBOptimizedSQLCipher/parse.c:148-156 | the cell holds the new node and reaches to the right operand's end |
| ExprBuild.ExprSpan.ExprNot | Floral/Pods/WCDBOptimizedSQLCipher/parse.c:161-165 | a NOT around the tree if asked for, nothing else |
| ExprBuild.ExprSpan.SpanUnaryPostfix | Floral/Pods/WCDBOptimizedSQLCipher/parse.c:170-178 | the unary node, up to the operator's end |
| ExprBuild.ExprSpan.BinaryToUnaryIfNull | Floral/Pods/WCDBOptimizedSQLCipher/parse.c:183-190 | the right operand goes and the operator changes when it is a literal NULL |
| ExprBuild.ExprSpan.SpanUnaryPrefix | Floral/Pods/WCDBOptimizedSQLCipher/parse.c:195-205 | the unary node, from the operator to the operand's end |
| ExprBuild.ExprSpan.InAction | Floral/Pods/WCDBOptimizedSQLCipher/parse.c:3392-3446 | the three forms of IN over a list, ending at the parenthesis |
| ExprBuild.Build | Floral/Pods/WCDBOptimizedSQLCipher/parse.c:3135-3524 | reducing bottom up through the cells leaves the specified tree and span |
| ExprBuild.BuildWhens | Floral/Pods/WCDBOptimizedSQLCipher/parse.c:3504-3518 | the WHEN loop appends test and result of each clause in order |
| ExprBuild.BuildChecked | Floral/Pods/WCDBOptimizedSQLCipher/parse.c:3135-3524 | the cell's tree has the text's meaning and its span covers the tokens, with the one exception |
| FromList.ErrorsExactly | Floral/Pods/WCDBOptimizedSQLCipher/src/build.c:3825-3830 | the JOIN-required error is raised exactly for texts in which some first source carries ON or USING |
| FromList.ShiftKeepsLeaves | Floral/Pods/WCDBOptimizedSQLCipher/src/build.c:3907-3915 | moving operators to their right operands keeps the sequence of sources and operators |
| FromList.LoneDetailIsDetails | Floral/Pods/WCDBOptimizedSQLCipher/parse.c:2899-2905 | the text has a lone source with a watched detail if and only if the list has a lone item with one, and a first item never has ON or USING |
| FromList.MovedLeaves | Floral/Pods/WCDBOptimizedSQLCipher/parse.c:2905-2914 | a moved item keeps its names or subquery and loses its alias, index hint and call, if it has any |
| FromList.LeavesAreConserved | Floral/Pods/WCDBOptimizedSQLCipher/parse.c:2865-2923 | through any nesting the list holds what was written, in order, each table under the name and the database that the text gives it, with nothing missing but the aliases, hints and calls one chooses to watch; some are missing if and only if a lone source that carries one is moved out of its parentheses |
| FromList.FromListConserved | Floral/Pods/WCDBOptimizedSQLCipher/parse.c:2865-2923 | sources, join operators, ON and USING always come out in order; everything does if and only if no detail is lost |
| FromList.ShapeIsKept | Floral/Pods/WCDBOptimizedSQLCipher/parse.c:2899-2923 | the list is nested as the text is, parentheses around a single source or group being dropped, and those that start a list with nothing after them |
| FromList.CallIsLost | Floral/Pods/WCDBOptimizedSQLCipher/parse.c:2905-2914 | `x, (f(args))` loses the call |
| FromList.AliasAndHintAreLost | Floral/Pods/WCDBOptimizedSQLCipher/parse.c:2905-2914 | `x, (y AS z INDEXED BY i)` loses the alias and the hint |
| FromList.SrcList.ShiftJoinType | Floral/Pods/WCDBOptimizedSQLCipher/src/build.c:3907-3915 | the backward loop in place is the simultaneous shift |
| FromList.Memory.SrcListDelete | Floral/Pods/WCDBOptimizedSQLCipher/src/build.c:3779-3795 | deleting frees each piece the list owns once, nested lists included, and only live ones |
| FromList.AppendFromTerm | Floral/Pods/WCDBOptimizedSQLCipher/src/build.c:3813-3851 | one term at the end, or null with the trees freed; ownership balances either way |
| FromList.SrcListIndexedBy | Floral/Pods/WCDBOptimizedSQLCipher/src/build.c:3857-3873 | the hint goes to the last item |
| FromList.SrcListFuncArgs | Floral/Pods/WCDBOptimizedSQLCipher/src/build.c:3879-3890 | the arguments go to the last item, or are freed after an error |
| FromList.MoveOut | Floral/Pods/WCDBOptimizedSQLCipher/parse.c:2907-2914 | the moved fields change owner: the old item is emptied of them |
| FromList.ReduceNested | Floral/Pods/WCDBOptimizedSQLCipher/parse.c:2899-2923 | all three branches build the specified list, and no piece of memory is lost or owned twice |
| FromList.ParseSource | Floral/Pods/WCDBOptimizedSQLCipher/parse.c:2877-2923 | one more source of any kind on the prefix, by the actions in place |
| FromList.ParseFrom | Floral/Pods/WCDBOptimizedSQLCipher/parse.c:2852-2923 | a whole FROM clause: null exactly on the error, else sources and operators in order and nested as written, and what was allocated is owned or freed once |
| TriggerSteps.First | Floral/Pods/WCDBOptimizedSQLCipher/parse.c:3685-3691 | a queue of one that is its own last |
| TriggerSteps.Append | Floral/Pods/WCDBOptimizedSQLCipher/parse.c:3676-3683 | one more step at the end by two writes, the list staying acyclic and the head knowing the last |
| TriggerSteps.CommandList | Floral/Pods/WCDBOptimizedSQLCipher/parse.c:3676-3691 | any number of commands in source order |
| TriggerSteps.Finish | Floral/Pods/WCDBOptimizedSQLCipher/src/trigger.c:285-288 | the walk visits every step once, in order, and ends |
| TriggerSteps.BodyRoundTrip | Floral/Pods/WCDBOptimizedSQLCipher/parse.c:3676-3691 | queueing and walking gives back the commands |
| TriggerSteps.ReadingIsUnique | Floral/Pods/WCDBOptimizedSQLCipher/parse.c:3676-3691 | a head has one reading as a linked list |
| FkActions.ActionsAreBytes | Floral/Pods/WCDBOptimizedSQLCipher/src/pragma.c:241-252 | each action fits in a byte and is named again when read from it; only NO ACTION is zero |
| FkActions.ApplyIsWanted | Floral/Pods/WCDBOptimizedSQLCipher/parse.c:2532-2556 | one more clause replaces the byte of its kind and leaves the other alone |
| FkActions.KindsCommute | Floral/Pods/WCDBOptimizedSQLCipher/parse.c:2532-2556 | clauses of different kinds may change places anywhere |
| FkActions.RefArgs | Floral/Pods/WCDBOptimizedSQLCipher/parse.c:2527-2536 | the fold gives the last ON DELETE action in the low byte, the last ON UPDATE action in the next, and no other bit; zero when nothing was written |
| FkActions.ForeignKeyActions | Floral/Pods/WCDBOptimizedSQLCipher/src/build.c:2693-2694 | the two bytes stored name those last actions, and are zero where no clause was written |

## Left out

- The 332 SQL rules and the 1570-slot tables as data: the engine is proved for every valid automaton, and a fragment
  shows that the conditions can be met.
- LR completeness (that every sentence is accepted) and conflict resolution by precedence: the claims are about what the
  machine does with given tables.
- What makes the driver stop between tokens: which tokens finish a command, raise an error in an action or run out of
  memory, and where the text is too long, interrupted or illegal, are arbitrary parameters of the driver
  (`Engine.Host`), and the messages raised there are not logged. Spaces and comments are not tokens here, except that
  the text after the last token goes into the closing tokens. Inside the FROM-list model the one semantic error is
  followed to its release.
- Allocation failure inside the actions and the stack's growth, tracing, coverage marks, name tables, high-water marks,
  and the error-recovery branches that `YYNOERRORRECOVERY` compiles out.
- Build: expression nodes are values, so the in-place edit of a node, sharing between trees and their release are not
  captured; the span cells are objects. Errors raised by the actions (`#n` outside a nested parse, too many arguments),
  affinity and property flags and node heights are not part of this model.
- TreeMeans: values other than integers and NULL are not told apart, a row value is one value, and COLLATE is an
  arbitrary function of its collation and its operand: how a comparison chooses among collations is not part of this
  model. Comparison, arithmetic other than negation, functions, casts, table membership, and how a subquery combines its
  rows are arbitrary parameters of the environment; which rows it ranges over is one too.
- ReduceNested: the list behind a nested subquery is a value from the moment it is wrapped; the lists being built are
  objects. Cursor numbers and the other fields filled in later are not part of this model.
- RunsStop: is about a bounded stack; for a growing one it is false, as GrowingStack shows.
- RunParser: the stacked semantic value is the parse tree; what the other reduce actions make of it, and the data they
  hand to code generation, are not part of this model.
- Reduce actions that only forward to schema, pragma, attach, index and data-modification code.
