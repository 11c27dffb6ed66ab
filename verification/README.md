# Verified model of the finance kernel's hard parts

This project models, in Dafny, the parts of the finance system whose correctness is not obvious from
reading them, and proves what they promise for all inputs and over whole runs.

| module | models |
|---|---|
| `Rounding`, `StableSort`, `Lexicographic`, `Graphs`, `Common` | half-up rounding, Python's stable sort and string order, reachability and cycles, shared types |
| `Tax` | tax added to a net amount, tax extracted from a gross amount, and when the second undoes the first |
| `LinkGraph` | the append-only store of typed links between artifacts and its invariants |
| `Correction`, `CorrectionService`, `CorrectionRuns` | the cascade of a correction, its unwind plan, its execution, whole runs of voids, and concrete runs on small graphs |
| `Rbac` | role inheritance, its validation and flattening, and the runtime check |
| `Dispatch` | the policy index, the compile-time ambiguity check and the runtime precedence resolver |
| `Allocation`, `Reconciliation` | allocation by ratio and in sequence, and payments applied to invoices through links |
| `Cascade`, `Billing` | indirect cost cascades, contract bills and their caps over a contract's life |
| `Timesheet` | the overlap and daily-hours checks |
| `PeriodClose` | the phased period close under a lock, with other sessions acting in between |
| `Ice` | the schedules of an incurred cost submission and their cross-checks |

Money is a whole number of minor units and rates are exact reals. A Python call that may raise returns
an `Outcome`. Code that updates state is a class or a method with loops; the function that specifies it
stands beside it and the theorems are about that function. `dafny verify dfyconfig.toml` checks the project.

## Where the code and its documentation differ

The model follows the code in each case.

- Allocation promises that shares sum to the amount (finance_engines/allocation.py:363-365). With a
  rounding target that is not last they need not: `Allocation.SharesConserveIff` gives the exact
  condition and `Allocation.EarlyRoundingTargetOverallocates` an input.
- A cost-plus bill is documented to itemise its indirect cost; material handling is charged but has no
  line (`Billing.CalculateCostPlus`, and `Billing.BillWithHandling` for an input).
- Billing is documented never to exceed the contract ceiling; fixed-price bills do not read it
  (`Billing.FixedPriceWithinCeilingIff`, `Billing.FixedPriceCanPassCeiling`).
- The standard cascade is documented to take overhead on direct costs plus fringe; it takes it on direct
  labor plus fringe (`Cascade.OverheadAsDocumentedIff`, `Cascade.OverheadSkipsOtherDirect`).
- CORRECTED_BY is not allowed on events, cost lots, shipments and other kinds that a cascade can reach,
  so an execution can raise after its compensating entries are written
  (`CorrectionService.LinksCompleteIff`, `CorrectionRuns.VoidReceiptWithCostLot`).
- Only the first journal entry of an artifact is reversed (`Correction.SecondEntrySurvives`,
  `CorrectionRuns.VoidInvoiceBookedTwice`).
- `void_document` with `cascade=False` still unwinds every downstream artifact that is not blocked
  (`CorrectionService.OnlyDocumentVoidedIff`, `CorrectionRuns.VoidInvoiceWithoutCascade`).
- A negative `max_depth` lists the root alone, and zero means the default (`Correction.CascadeIsClosure`,
  `CorrectionRuns.VoidWithNegativeDepth`).
- A plan is refused as too deep when an artifact at the limit has any downstream link, even one that leads
  back to a listed artifact (`Correction.ExceedsIff`, `CorrectionRuns.PlanForLoop`).
- The fee ceiling is documented as a maximum total fee; each bill applies it afresh
  (`Billing.TotalFeeWithinCeilingIff`, `Billing.FeePassesItsCeiling`).
- Precedence is documented as override, then scope, then priority. When the top scope is shared, priority
  is compared over all candidates (`Dispatch.TopScopeSelectedIff`, `Dispatch.CatchAllWinsOverScope`).
- The close lock is documented as exclusive; phase 5 does not check who holds it
  (`PeriodClose.ClosePassesIff`, `PeriodClose.LockIsTakenOver`).
- Two artifacts booked by one journal entry have it reversed twice (`Correction.ReversedTwiceIff`,
  `CorrectionRuns.VoidSharedEntry`).
- `close_period_full` is documented as idempotent; on a closed period it raises. An actor below approver
  passes phases 1 to 4 and is then refused, leaving the period CLOSING
  (`PeriodClose.PeriodCloseOrchestrator.ClosePeriodFull`).
- Caller metadata can replace the amount recorded on a payment link after the guard has checked another
  amount (`Reconciliation.MetadataOverridesTheGuard`).
- The pool bases of the cost submission are documented as labor plus fringe and total cost; the code uses
  labor and direct cost alone (`Ice.ClaimWithinBill`).

## Model

| member | source | states |
|---|---|---|
| `Rounding.RoundHalfUp` | finance_engines/tax.py:479-483 | the result is the nearest whole minor unit, and a tie goes away from zero |
| `Rounding.RoundingCharacterised` | finance_engines/tax.py:479-483 | that contract determines the value: an integer is the rounding exactly when it is within half a unit and breaks ties that way |
| `Tax.CollectRates` | finance_engines/tax.py:304-335 | succeeds exactly when every code names a rate effective on the date, and then returns those rates in the order of the codes; otherwise raises the error of the first code that cannot be used |
| `Tax.UsableIff` | finance_engines/tax.py:136-143 | a code is usable if and only if it names a rate whose effective dates, both ends included, contain the date; a dated rate needs a date; and which error each other case raises |
| `Tax.Calculate` | finance_engines/tax.py:271-357 | no codes means no tax; with usable codes the result is Exclusive or Inclusive of the rates they name, line by line as AddedInOrder and TakenOut say, so that net plus all lines is gross; otherwise the error of the first unusable code |
| `Tax.CalculateExclusive` | finance_engines/tax.py:453-530 | the two loops compute the specification Exclusive: simple taxes on net in ascending priority, then each compound tax on everything before it |
| `Tax.CalculateInclusive` | finance_engines/tax.py:532-635 | the loops compute Inclusive: compound taxes out of gross in descending priority, simple taxes shared out of the rest with the last taking the remainder, lines reversed; several zero-rated simple taxes divide 0 by 0 |
| `Tax.CalculateWithholding` | finance_engines/tax.py:387-451 | only a withholding rate is accepted; the one line carries gross times rate, rounded, net plus the line is gross, and net is between 0 and gross for rates up to one |
| `Tax.ExclusiveConserves` | finance_engines/tax.py:480-522 | net plus all lines is gross for every amount and every list of rates |
| `Tax.ExclusiveLineByLine` | finance_engines/tax.py:470-522 | line by line and field by field: simple taxes first on the net, then each compound tax on the net plus all taxes before it, each the base times its rate rounded half up |
| `Tax.AppliedByPriority` | finance_engines/tax.py:469-474 | rates are applied once each, simple before compound, lower priority first, and otherwise in the order given |
| `Tax.InclusiveConserves` | finance_engines/tax.py:557-635 | whenever extraction returns, net plus all lines is gross |
| `Tax.InclusiveLineByLine` | finance_engines/tax.py:546-635 | line by line: a compound tax is the part rate/(1+rate) of what is left, rounded; the net is the part 1/(1+R) of what compound taxes leave; every simple tax but the last is its share rate/R of the difference, rounded, the last taking the rest |
| `Tax.ExtractedByPriority` | finance_engines/tax.py:547-552 | rates are extracted once each, compound before simple, higher priority first |
| `Tax.SharesAreProportional` | finance_engines/tax.py:590-612 | every simple tax but the last is within half a unit of its exact part, and the last within (k-1)/2 |
| `Tax.InclusiveSharesProportional` | finance_engines/tax.py:590-612 | the same bounds for the lines of an extraction, in the order in which the taxes are taken out |
| `Tax.ExtractionUndoesOneTax` | finance_engines/tax.py:557-577 | taking one tax out of base plus that tax finds exactly the tax and the base, for any sign and any rate, because the rounding error shrinks by 1 + rate |
| `Tax.ExtractionUndoesCompound` | finance_engines/tax.py:500-577 | extracting any number of compound taxes in the reverse of the order they were applied gives back every line |
| `Tax.CompoundRoundTrip` | finance_engines/tax.py:494-577 | once the compound taxes are out of the gross, what is left is exactly what the simple taxes had produced |
| `Tax.DistinctPrioritiesReverse` | finance_engines/tax.py:470-548 | when priorities identify their rates, the ascending and the descending stable sort put them in opposite orders, for simple and for compound rates |
| `Tax.RoundTrip` | finance_engines/tax.py:453-635 | round trip: with at most one simple rate and distinct compound priorities, extraction from the gross of the exclusive calculation returns the same net, the same ordered lines and the same gross |
| `Tax.ReversesIff` | finance_engines/tax.py:470-548 | the two stable sorts oppose each other exactly when, within every priority, the rates as listed by the caller read the same backwards, for simple and for compound rates |
| `Tax.PalindromicIsDistinct` | finance_engines/tax.py:470-548 | without repeated rates that is the same as no two of them sharing a priority |
| `Tax.RoundTripIff` | finance_engines/tax.py:453-635 | the exact condition: with at most one simple rate the round trip succeeds if and only if the compound rates of each priority read the same backwards |
| `Tax.EqualPrioritiesBreakRoundTrip` | finance_engines/tax.py:470-548 | any two compound rates of equal priority and different codes fail to round trip, for every net |
| `Tax.RoundTripFailsOnEqualPriorities` | finance_engines/tax.py:470-548 | a concrete failure: two compound rates of equal priority |
| `Tax.RecoveredNet` | finance_engines/tax.py:480-601 | with any number of simple rates, and compound rates that read the same backwards within each priority, the recovered net is the original plus the accumulated rounding error divided by one plus the combined rate, rounded |
| `Tax.NetDrift` | finance_engines/tax.py:480-601 | with k simple rates of sum R the recovered net is within k/(2(1+R)) + 1/2 minor units of the original |
| `Tax.NetRecoveredIff` | finance_engines/tax.py:480-601 | the net survives if and only if the accumulated rounding error of the simple taxes is below (1+R)/2, a tie counting when it points towards zero |
| `Tax.NetLostWithTwoSimpleRates` | finance_engines/tax.py:480-601 | a concrete failure: two 50% simple taxes on one minor unit come back as a net of two |
| `Tax.SharesReturnIff` | finance_engines/tax.py:583-635 | when the net is recovered, the share lines read backwards are the simple taxes applied if and only if every share but the remainder equals its tax |
| `Tax.AnyRoundTripIff` | finance_engines/tax.py:453-635 | the exact condition for any rates whose codes name them: the round trip succeeds if and only if the shares are defined, simple and compound rates of equal priority read the same backwards, the rounding error is too small to move the net, and every proportional share equals the tax applied |
| `Tax.SimpleOrderLost` | finance_engines/tax.py:470-548 | a concrete failure of order alone: two 50% simple rates of equal priority on 100 recover the net and return their lines reversed |
| `LinkGraph.CreateLink` | finance_kernel/domain/economic_link.py:317-346 | a link object exists exactly when its ends differ and its type allows their kinds |
| `LinkGraph.TypesAllowedByEnds` | finance_kernel/domain/economic_link.py:187-315 | the type table agrees with its transpose: a link is allowed if and only if its type fits both ends |
| `LinkGraph.LinkStore.FindExisting` | finance_kernel/services/link_graph_service.py:359-383 | finds a link of the same type and ends if and only if there is one |
| `LinkGraph.LinkStore.CanReach` | finance_kernel/services/link_graph_service.py:409-432 | the depth-first search with a shared visited set reports a path only if there is one, and otherwise leaves a set closed under links that misses the target |
| `LinkGraph.LinkStore.DetectCycle` | finance_kernel/services/link_graph_service.py:404-437 | a cycle is reported if and only if the child of the new link already reaches its parent |
| `LinkGraph.LinkStore.EstablishLink` | finance_kernel/services/link_graph_service.py:92-162 | a link of the same type and ends is reported as there already or refused, a cycle only in the five acyclic types and a surplus child only for reversals and corrections; otherwise the link is appended, and the store stays well formed |
| `LinkGraph.EstablishKeepsWellFormed` | finance_kernel/services/link_graph_service.py:92-162 | every accepted link keeps all links legal, free of duplicates, acyclic per acyclic type and single-child where required |
| `LinkGraph.WellFormedMeans` | finance_kernel/services/link_graph_service.py:92-162 | a well-formed store has no cycle of fulfilment, sourcing, derivation, consumption or correction, no second reversal or correction of an artifact and no link twice |
| `LinkGraph.OtherTypesUnguarded` | finance_kernel/services/link_graph_service.py:92-162 | links of the other types are always accepted unless they are repeated |
| `LinkGraph.NoLinksWellFormed` | finance_kernel/services/link_graph_service.py:73-91 | the empty store satisfies those invariants |
| `Graphs.AddEdgeKeepsAcyclic` | finance_kernel/services/link_graph_service.py:404-437 | an edge closes a cycle only if its head already reaches its tail |
| `Graphs.SearchIsReachability` | finance_kernel/services/link_graph_service.py:409-432 | a set that contains the start, is closed under edges and holds only reachable nodes is the set of reachable nodes |
| `CorrectionService.CorrectionEngine.VisitChildren` | finance_services/correction_service.py:351-380 | adds exactly the unvisited downstream children of one artifact, each with its path, entries and block reason |
| `CorrectionService.CorrectionEngine.VisitLevel` | finance_services/correction_service.py:346-385 | after it every artifact of the level has all its children listed, and everything added is one deeper |
| `CorrectionService.CorrectionEngine.TraverseDownstream` | finance_services/correction_service.py:318-392 | the breadth-first loop lists every artifact up to the depth limit once, at its distance from the root; it raises if and only if some artifact below the root within the limit is in a closing period |
| `Correction.CanUnwindIff` | finance_services/correction_service.py:394-422 | an artifact may be unwound if and only if no link corrects or reverses it and its period, if it has one, is open; and which reason or error each other case gets |
| `Correction.CorrectedIff` | finance_services/correction_service.py:776-778 | an artifact is corrected if and only if some CORRECTED_BY link starts from it |
| `Correction.DownstreamIff` | finance_services/correction_service.py:143-150 | downstream links are those of fulfilment, sourcing, derivation, consumption and payment |
| `Correction.DepthGiven` | finance_services/correction_service.py:225-225 | a depth limit of zero counts as none, and none as ten |
| `CorrectionService.CorrectionEngine.GenerateEntries` | finance_services/correction_service.py:280-295 | the entries are the reversals of the unwindable artifacts, in order, unless one of them does not balance, which is then named |
| `CorrectionService.CorrectionEngine.BuildUnwindPlan` | finance_services/correction_service.py:194-316 | a plan lists exactly what is within the depth limit, each artifact once at its distance, which is the downstream closure if and only if the limit is positive or the root has no other artifact downstream; it is refused if and only if the root is corrected, a period within the limit is closing, an artifact at distance exactly the limit has a downstream link, or a reversal does not balance, in that order |
| `Correction.CascadeIsClosure` | finance_services/correction_service.py:251-392 | whenever a traversal ends without open artifacts at the limit, its list is exactly the set reachable over downstream links, on any graph including diamonds and cycles; a negative limit lists the root alone |
| `Correction.RootAlone` | finance_services/correction_service.py:194-316 | listing the root alone is the closure if and only if the root links only to itself |
| `Correction.ListedIsWithin` | finance_services/correction_service.py:318-392 | a finished traversal has listed exactly the artifacts within its limit, each at its distance |
| `Correction.UnwindsIsMarks` | finance_services/correction_service.py:318-422 | what a plan unwinds is the root and exactly the unblocked artifacts within the limit |
| `Correction.OpenIsListed` | finance_services/correction_service.py:254-269 | looking at the listed artifacts at the limit decides whether any artifact at that distance has a downstream link |
| `Correction.ExceedsIff` | finance_services/correction_service.py:254-269 | the graph is deeper than the limit if and only if a link leads from distance exactly the limit to an artifact beyond it, so the refusal is spurious exactly when all such links lead back |
| `Correction.PlanBalancesIff` | finance_services/correction_service.py:279-295 | every planned entry balances if and only if no artifact to be marked has an unbalanced first entry |
| `Correction.ListExtends` | finance_services/correction_service.py:351-380 | listing a further child of a listed artifact keeps the list duplicate free with true distances and paths |
| `Correction.LevelDone` | finance_services/correction_service.py:346-385 | when every artifact of a depth has its children listed, the next depth may begin |
| `Graphs.AddToLevel` | finance_services/correction_service.py:346-385 | a node first met one step below level d is at distance d + 1 |
| `Graphs.LevelsComplete` | finance_services/correction_service.py:346-385 | every path shorter than the open level ends in a node already found |
| `Graphs.LevelsAreReachability` | finance_services/correction_service.py:318-392 | with no level open, the nodes found are the nodes reachable |
| `Correction.FlipSwapsTotals` | finance_engines/correction/unwind.py:102-128 | reversing lines exchanges total debits and total credits |
| `Correction.FlipNegates` | finance_engines/correction/unwind.py:102-128 | reversing lines negates their net effect on every account and currency |
| `Correction.FlipLine` | finance_engines/correction/unwind.py:102-128 | reversing moves every line to the other side and keeps its account, currency and amount |
| `Correction.BalancedIff` | finance_engines/correction/unwind.py:157-180 | an entry balances if and only if debits less credits come to nothing |
| `Correction.DueIs` | finance_services/correction_service.py:511-546 | an artifact is due one compensation, for its first entry, unless it has none or that one has no lines |
| `Correction.PlanCompensatesOnce` | finance_services/correction_service.py:280-295 | a plan holds exactly one compensation for each unwindable artifact with lines to reverse, and none for any other |
| `Correction.LinkPhaseCorrects` | finance_services/correction_service.py:631-653 | a completed link phase marks the unwindable artifacts as corrected, and no others |
| `Correction.LinkPhaseAdds` | finance_services/correction_service.py:631-653 | the link phase keeps every link and adds only CORRECTED_BY links from unwindable artifacts to the correction document |
| `CorrectionService.CorrectionEngine.FirstBlocked` | finance_engines/correction/unwind.py:408-410 | returns the first blocked artifact, if there is one |
| `CorrectionService.CorrectionEngine.MarkArtifact` | finance_services/correction_service.py:631-653 | adds the CORRECTED_BY link of an unwindable artifact or returns why it was rejected |
| `CorrectionService.CorrectionEngine.MarkCorrected` | finance_services/correction_service.py:631-653 | marks artifacts in order and stops at the first rejected link |
| `CorrectionService.CorrectionEngine.ExecuteCorrection` | finance_services/correction_service.py:552-671 | writes the plan entries and runs the link phase if and only if the plan is not a dry run, its root is not corrected and a cascade has nothing blocked; otherwise leaves the books untouched |
| `CorrectionService.CorrectionEngine.VoidDocument` | finance_services/correction_service.py:673-721 | exact effect: after a completed void an artifact is corrected if and only if it was before or is the document or an unblocked artifact downstream of it, whether or not it cascades; whatever else it newly corrects was neither corrected nor reversed and is in an open period; exactly those are compensated, and only links to the correcting document are added; exact completion: entries are written if and only if the plan can be built and a cascade finds nothing blocked, and the links then complete if and only if only correctable kinds are marked |
| `CorrectionService.MarkedMeans` | finance_services/correction_service.py:394-422 | what a void marks besides its document is downstream of it, uncorrected, not reversed and in an open period |
| `CorrectionService.OnlyDocumentVoidedIff` | finance_services/correction_service.py:673-721 | a void touches only its document if and only if nothing else downstream could be unwound; cascade=False does not make it so |
| `CorrectionRuns.VoidInvoiceWithoutCascade` | finance_services/correction_service.py:673-721 | a concrete run: voiding an invoice with cascade=False also voids the payment made on it |
| `CorrectionRuns.VoidWithNegativeDepth` | finance_services/correction_service.py:194-269 | a concrete run: with max_depth -1 a cascading void leaves the payment of the invoice standing |
| `CorrectionRuns.VoidReceiptWithCostLot` | finance_services/correction_service.py:552-721 | a concrete run: voiding a receipt that sourced a cost lot writes the reversal of its entry and then raises |
| `CorrectionRuns.VoidInvoiceBookedTwice` | finance_services/correction_service.py:511-546 | a concrete run: voiding an invoice with two journal entries leaves the balance of the second |
| `CorrectionRuns.PlanForLoop` | finance_services/correction_service.py:254-269 | a concrete run: an invoice and a payment that link to each other are refused with max_depth 1, although nothing is deeper than that |
| `CorrectionService.LinksCompleteIff` | finance_services/correction_service.py:618-653 | under a fresh correction document the links of a plan complete if and only if everything it marks is of a kind that CORRECTED_BY allows |
| `Correction.VoidKeepsSettled` | finance_services/correction_service.py:552-671 | one void keeps: corrected artifacts carry exactly the compensation they are due, others none |
| `Correction.RunIsSettled` | finance_services/correction_service.py:552-721 | the same over any sequence of voids, completed or rolled back |
| `Correction.VoidsAreNeutral` | finance_services/correction_service.py:552-721 | over any run an artifact loses exactly its first entry, per account and currency, if the run corrected it, and keeps its balance otherwise |
| `Correction.CorrectedArtifactsNetToZero` | finance_services/correction_service.py:552-721 | with one entry to its name a corrected artifact nets to zero in every account and currency and is compensated at most once |
| `Correction.SecondEntrySurvives` | finance_services/correction_service.py:511-546 | with several entries the balance left is exactly that of the entries after the first |
| `Correction.ReversedTwiceIff` | finance_services/correction_service.py:511-721 | over any run a journal entry is reversed twice if and only if it is the first entry of two different artifacts that the run corrected |
| `CorrectionRuns.VoidSharedEntry` | finance_services/correction_service.py:511-721 | a concrete run: an invoice and its payment booked by one entry have that entry reversed twice |
| `CorrectionService.ExecutionCompletesIff` | finance_services/correction_service.py:618-653 | under a fresh correction document the link phase completes if and only if every unwindable artifact is of a kind that CORRECTED_BY allows |
| `Rbac.RolesByName` | finance_config/compiler.py:1061-1061 | a name is in the map if and only if some role carries it |
| `Rbac.LastDefinitionWins` | finance_config/compiler.py:1061-1061 | of several roles with one name the last one counts |
| `Rbac.ResolveDepth` | finance_config/compiler.py:1065-1096 | the path recursion terminates; without a cycle error every walk is fresh and the depth is the length of the longest line of inheritance |
| `Rbac.WalksThroughParents` | finance_config/compiler.py:1065-1096 | if no walk from any parent returns to the path, none from the role does |
| `Rbac.ChainThroughParents` | finance_config/compiler.py:1080-1096 | one more than the deepest parent is the longest line of inheritance |
| `Rbac.FreshWalksAcyclic` | finance_config/compiler.py:1098-1099 | when every listed role has only fresh walks the inheritance graph is acyclic |
| `Rbac.ChainsWithin` | finance_config/compiler.py:1080-1099 | when every listed role is within the limit no line of inheritance exceeds it |
| `Rbac.ValidateInheritance` | finance_config/compiler.py:1064-1099 | a cycle is reported if and only if one exists, and the depth limit, on an acyclic graph, if and only if some line of inheritance exceeds it; with a limit below one, always if and only if some role inherits at all |
| `Rbac.Expand` | finance_config/compiler.py:1102-1110 | the shared-seen recursion returns the permissions of exactly the roles it adds, all reachable, leaving none with a defined parent outside |
| `Rbac.Flatten` | finance_config/compiler.py:1101-1117 | a role is given a permission if and only if it or a role it reaches through inherits declares it |
| `Rbac.FlattenAll` | finance_config/compiler.py:1112-1117 | the table holds every role in order with exactly its inherited permissions, and the assigned set is their union |
| `Rbac.MissingFrom` | finance_config/compiler.py:1119-1149 | lists exactly the wanted permissions that are not present |
| `Rbac.CompileRbac` | finance_config/compiler.py:1056-1173 | for every depth limit: a configuration compiles if and only if inheritance is acyclic and within the limit, only taxonomy permissions are used and each is assigned; the result is the flattened table |
| `Rbac.CheckRbac` | finance_services/rbac_authority.py:51-113 | allows if and only if the authority requirement is met and either nobody is acting or the permission is held and no role or permission conflict arises; an authority role, where required, must be named and possessed; what is allowed to someone with roles, the configuration grants to one of those roles, the authority role where one is required |
| `Rbac.MapEntryIsFlattened` | finance_services/rbac_authority.py:69-72 | the lookup map built from the table gives each role exactly its inherited permissions, also when names repeat |
| `Rbac.AllowImpliesGrant` | finance_services/rbac_authority.py:69-92 | a permission held by an acting role is declared by some role on an inheritance path from it in the configuration as written |
| `Rbac.HeldIff` | finance_services/rbac_authority.py:69-92 | end to end: acting roles hold a permission if and only if the configuration as written grants it to one of them through inheritance |
| `Dispatch.DecideChooses` | finance_services/pack_policy_source.py:123-165 | the resolver returns one of its candidates or a multiple match |
| `Dispatch.SelectionPassesFilters` | finance_services/pack_policy_source.py:174-229 | the selected policy is in the pack and, by its own fields, has all its capabilities on, is effective on the date and in scope; its where-clause holds, and a policy without one wins only if no eligible clause holds |
| `Dispatch.EligibleIff` | finance_config/compiler.py:588-594 | the filters say: every tag, lowered, is a capability that is on, the date is within the effective dates, and the scope is everything, the event scope or an open prefix of it |
| `Dispatch.OnlyPolicyIsSelected` | finance_services/pack_policy_source.py:174-229 | a policy that is alone in force, without a where-clause, is selected |
| `Dispatch.NotFoundIff` | finance_services/pack_policy_source.py:182-229 | not found if and only if every policy in force, by its own fields, has a where-clause and no payload satisfies it |
| `Dispatch.SpecificityIsNarrowness` | finance_services/pack_policy_source.py:114-121 | of two policies that match the same event scope the more specific one is the narrower: whatever it matches the other matches too |
| `Dispatch.SpecificityDistinguishes` | finance_services/pack_policy_source.py:114-121 | two policies of equal specificity that match the same event scope have the same scope |
| `Dispatch.UnrankedIsZero` | finance_services/pack_policy_source.py:153-158 | a policy without precedence ranks as priority zero |
| `Lexicographic.FirstDifference` | finance_services/pack_policy_source.py:160-161 | names are ordered by the first character in which they differ, a prefix first |
| `Dispatch.ContendersAre` | finance_services/pack_policy_source.py:126-146 | if some override policy is not named by an override policy, exactly those contend; otherwise all candidates do |
| `Dispatch.ScopeWins` | finance_services/pack_policy_source.py:147-152 | a candidate more specific than all others is selected whatever its priority |
| `Dispatch.PriorityWins` | finance_services/pack_policy_source.py:153-158 | without one, a candidate of strictly highest priority among all candidates is selected |
| `Dispatch.SharedScopeYieldsToPriority` | finance_services/pack_policy_source.py:147-158 | two policies that share the top scope lose to a less specific one of higher priority, for any three such policies |
| `Dispatch.NameDecides` | finance_services/pack_policy_source.py:159-165 | with neither, the first name is selected unless it ties with the second on priority and specificity, which is a multiple match |
| `Dispatch.TopScopeSelectedIff` | finance_services/pack_policy_source.py:123-165 | the documented order, scope before priority, holds of a decision if and only if one candidate is most specific, or the one of highest priority shares the top scope, or without such a one the first by name does |
| `Dispatch.CatchAllWinsOverScope` | finance_services/pack_policy_source.py:123-229 | a concrete dispatch: two policies for US:CA lose to a catch-all policy of higher priority |
| `Dispatch.DecideOfPermutation` | finance_services/pack_policy_source.py:123-165 | with distinct names the resolver gives the same answer for every order of its candidates |
| `Dispatch.DispatchIsOrderIndependent` | finance_services/pack_policy_source.py:123-229 | with distinct names permuting the pack changes neither the selected policy nor the error |
| `Dispatch.FewerPrioritiesIff` | finance_config/compiler.py:606-645 | a group has fewer distinct priorities than policies if and only if two of it share one |
| `Dispatch.GroupByWhere` | finance_config/compiler.py:606-620 | each where-clause is mapped to exactly its policies in order |
| `Dispatch.GroupClashes` | finance_config/compiler.py:606-645 | a group shares a priority if and only if two policies of the list share clause and priority |
| `Dispatch.CheckDispatchAmbiguity` | finance_config/compiler.py:606-645 | reports a where-clause if and only if two policies with it share a priority |
| `Dispatch.IndexByEventType` | finance_config/compiler.py:549-566 | the index lists for every event type exactly its policies in pack order |
| `Dispatch.BuildMatchIndex` | finance_config/compiler.py:549-585 | the index is complete, and a diagnostic is raised if and only if two admissible policies of an event type share a clause and a priority |
| `Dispatch.RankedDecides` | finance_services/pack_policy_source.py:147-165 | candidates with one clause between them and distinct priorities are always told apart |
| `Dispatch.CompileCheckIsSound` | finance_config/compiler.py:549-645 | if compilation raised no diagnostic for an event type, dispatch under the same capabilities reports a multiple match only when two matched policies have different where-clauses |
| `Allocation.AllocateByRatio` | finance_engines/allocation.py:349-452 | the loop computes ByRatio: rounded shares, the rounding target taking what is left at its turn, caps, and the reported adjustment |
| `Allocation.ByRatioLine` | finance_engines/allocation.py:376-415 | each line: the share of its ratio, rounded, or the remainder; cut down to the eligible amount; allocated plus remaining is the eligible amount |
| `Allocation.RatioOf` | finance_engines/allocation.py:285-347 | a target takes its eligible amount, its weight or one as its part of the total |
| `Allocation.AdjustmentIs` | finance_engines/allocation.py:427-434 | the reported adjustment is what the last target received beyond its own rounded share |
| `Allocation.NothingEligibleLine` | finance_engines/allocation.py:285-300 | with nothing eligible nothing is allocated |
| `Allocation.SharesConserveIff` | finance_engines/allocation.py:363-390 | the promised sum of uncapped shares holds if and only if the targets after the rounding target round to nothing in total; always for the default, the last |
| `Allocation.EarlyRoundingTargetOverallocates` | finance_engines/allocation.py:381-390 | a concrete failure with the first target rounding |
| `Allocation.LastShareCanBeNegative` | finance_engines/allocation.py:333-390 | five units over ten equal targets leave the last share at minus four |
| `Allocation.CapsAccountForDifference` | finance_engines/allocation.py:392-434 | total allocated is the sum of the shares less what the caps cut off |
| `Allocation.UnallocatedIsExcess` | finance_engines/allocation.py:369-434 | with the default rounding target shares sum to the amount and unallocated is exactly the excess the caps removed |
| `Allocation.RemainderBound` | finance_engines/allocation.py:369-390 | when ratios sum to one the remainder share is within (n-1)/2 minor units of its exact share |
| `Allocation.ProportionsSumToOne` | finance_engines/allocation.py:265-347 | pro-rata, weighted and equal ratios all sum to exactly one |
| `Allocation.RatiosSumToOne` | finance_engines/allocation.py:265-347 | the ratios that pro-rata, weighted and equal allocation divide by sum to exactly one |
| `Allocation.AllocateProRata` | finance_engines/allocation.py:265-311 | raises if and only if a target has no eligible amount; nothing is allocated when nothing is eligible; otherwise allocation by eligible proportions |
| `Allocation.ProRataBound` | finance_engines/allocation.py:265-452 | for an amount within the total eligible no target exceeds its eligible amount, only the last can be capped, and unallocated lies in [0, (n-1)/2] |
| `Allocation.ProRataSettlesInFull` | finance_engines/allocation.py:265-452 | an amount equal to the total eligible settles every target exactly |
| `Allocation.AllocateWeighted` | finance_engines/allocation.py:313-331 | raises if and only if the weights sum to zero; otherwise allocation by weight proportions |
| `Allocation.AllocateEqual` | finance_engines/allocation.py:333-347 | allocation in equal proportions |
| `Allocation.EqualPartsSum` | finance_engines/allocation.py:333-347 | n equal parts of one add up to n |
| `Allocation.AllocateSequential` | finance_engines/allocation.py:491-563 | the greedy loop gives each target in turn what it is eligible for until the amount runs out; lines, totals and remainders as the specification has them |
| `Allocation.SequentialLineIs` | finance_engines/allocation.py:500-545 | each line: up to the eligible amount of what is left, for every amount and every target; allocated plus remaining is the eligible amount |
| `Allocation.SequentialInClosedForm` | finance_engines/allocation.py:491-563 | each target receives the part of the amount that the targets before it leave, up to its eligible amount, and the total is the smaller of amount and total eligible |
| `Allocation.LeftInClosedForm` | finance_engines/allocation.py:491-563 | what is left after any prefix is the amount less its total eligible, or zero |
| `Allocation.ServedInOrder` | finance_engines/allocation.py:454-489 | targets that agree on date and priority are served in the order given, for FIFO, LIFO and SPECIFIC |
| `Allocation.ServedOrder` | finance_engines/allocation.py:454-489 | every target is served once: FIFO from the oldest date, LIFO from the newest, undated targets first in both, SPECIFIC by priority; equal dates by ascending priority |
| `Allocation.Allocate` | finance_engines/allocation.py:179-237 | the ratio methods give exactly ByRatio of their ratios and the sequential methods the greedy lines in serving order; allocated plus unallocated is the amount; an empty target list allocates nothing; the two error cases exactly |
| `Reconciliation.ReconciliationManager.GetReconciliationState` | finance_services/reconciliation_service.py:177-245 | the state is derived from the links alone |
| `Reconciliation.StateIs` | finance_services/reconciliation_service.py:177-245 | open until something is applied, then partial, matched or over-applied as it compares with the original amount |
| `Reconciliation.AppliedCounts` | finance_kernel/services/link_graph_service.py:258-302 | a link counts when it pays, allocates or applies, by the amount it records |
| `Reconciliation.ReconciliationManager.ApplyPayment` | finance_services/reconciliation_service.py:260-377 | in order: refused when matched already, negative, more than what remains, ill-typed or repeated; otherwise exactly one PAID_BY link from invoice to payment with the recorded amount is added |
| `Reconciliation.NoOverapplication` | finance_services/reconciliation_service.py:177-352 | after any interleaving of calls on any invoices, accepted or not, an invoice stays within its original amount and its balance moves by exactly what was accepted, if metadata does not override the amount |
| `Reconciliation.MatchedIsFinal` | finance_services/reconciliation_service.py:302-313 | once fully matched every further call on the invoice is rejected as already matched, in any run, and its links stay as they are |
| `Reconciliation.RecordedWithinIff` | finance_services/reconciliation_service.py:315-352 | an accepted call leaves the invoice within its original if and only if the amount it records is within what remained |
| `Reconciliation.MetadataOverridesTheGuard` | finance_services/reconciliation_service.py:339-352 | a concrete failure: a payment of 1 recorded as 500 against 100 |
| `Reconciliation.LinesAlign` | finance_services/reconciliation_service.py:412-444 | FIFO, LIFO and SPECIFIC keep line i aligned with invoice i, whose share it is |
| `Reconciliation.SharesTotal` | finance_services/reconciliation_service.py:412-444 | the shares of the first n invoices add up to the smaller of the payment and what is due on them |
| `Reconciliation.NextIsAccepted` | finance_services/reconciliation_service.py:427-444 | with payable invoices the next application is never refused |
| `Reconciliation.NextIsPaid` | finance_services/reconciliation_service.py:427-444 | and after it exactly one more invoice has its share |
| `Reconciliation.NeverOverapplied` | finance_services/reconciliation_service.py:379-454 | applications made across invoices cannot over-apply any of them |
| `Reconciliation.ReconciliationManager.ApplyPaymentAcrossInvoices` | finance_services/reconciliation_service.py:379-454 | whatever the inputs the store takes a run of payment calls and no invoice is over-applied; with payable invoices under FIFO, LIFO or SPECIFIC no call raises, every invoice gets its share and the total is the smaller of payment and amount due |
| `Cascade.ExecuteCascade` | finance_engines/allocation_cascade.py:152-288 | the loop over steps computes Run: results and pool balances |
| `Cascade.AtRateIs` | finance_engines/billing.py:1043-1050 | a rate on a base is rounded to the cent, half up |
| `Cascade.GrowthIsAllocated` | finance_engines/allocation_cascade.py:211-288 | for any steps the pools together grow by exactly the amounts allocated |
| `Cascade.UnchargedPoolsKeepBalance` | finance_engines/allocation_cascade.py:211-288 | a pool no step charges keeps its balance |
| `Cascade.DcaaCharges` | finance_engines/allocation_cascade.py:291-341 | the standard cascade charges fringe on labor, overhead on labor plus fringe and G&A on everything before it |
| `Cascade.OverheadAsDocumentedIff` | finance_engines/allocation_cascade.py:291-341 | overhead comes out as documented, on direct costs plus fringe, if and only if rounding hides the other direct costs |
| `Cascade.OverheadSkipsOtherDirect` | finance_engines/allocation_cascade.py:291-341 | a concrete cascade: 1.00 of overhead on 1.00 of labor and 1.00 of other direct cost at 100% |
| `Billing.CascadeEqualsBilling` | finance_engines/billing.py:417-468 | the cascade engine and the billing engine agree on fringe, overhead and G&A for every breakdown and every set of rates |
| `Billing.IndirectNonNegative` | finance_engines/billing.py:417-468 | indirect costs are never negative |
| `Billing.Withhold` | finance_engines/billing.py:518-543 | withholding plus net is gross, with both between 0 and gross for a rate in [0, 1] |
| `Billing.CostLines` | finance_engines/billing.py:604-673 | the direct lines of a breakdown add up to its direct cost and the indirect lines to its indirect cost without material handling |
| `Billing.CalculateCostPlus` | finance_engines/billing.py:591-740 | raises if and only if costs or rates are missing; gross is capped and never negative, net plus withholding is gross with both in range; direct lines add up to direct cost, and indirect lines to indirect cost if and only if material handling comes to zero |
| `Billing.BillWithHandling` | finance_engines/billing.py:640-680 | a concrete bill with indirect cost of 0.10 and no indirect line |
| `Billing.GrossNonNegative` | finance_engines/billing.py:343-943 | no bill is negative: always for T&M, labor-hour and fixed-price, and for a fee rate of at least zero on cost-plus |
| `Billing.LinesPartition` | finance_engines/billing.py:103-120 | the sum of the lines is the sum of direct, indirect, fee, milestone and withholding lines |
| `Billing.LaborLines` | finance_engines/billing.py:748-760 | one line per labor entry, adding up to the labor total |
| `Billing.CalculateHourly` | finance_engines/billing.py:743-876 | T&M and labor-hour bills: lines add up to the bill, both caps apply, 0 <= net <= gross for withholding in [0, 1] |
| `Billing.CalculateFixedPrice` | finance_engines/billing.py:879-943 | fixed-price bills: completed milestones, the funding limit and no ceiling, 0 <= net <= gross for withholding in [0, 1] |
| `Billing.CalculateBilling` | finance_engines/billing.py:343-414 | every contract type yields a bill with the common properties, 0 <= net <= gross for withholding in [0, 1] among them, or raises exactly when a cost-plus input is incomplete |
| `Billing.UncappedIs` | finance_engines/billing.py:591-926 | what each contract type bills before limits: cost, indirect cost and fee, labor and materials, labor alone, or completed milestones |
| `Billing.GrossIsMost` | finance_engines/billing.py:546-583 | the bill is the largest amount up to that which the limits leave |
| `Billing.OneMoreMilestone` | finance_engines/billing.py:886-897 | a milestone is billed in full when complete and not at all before |
| `Billing.OneMoreLaborEntry` | finance_engines/billing.py:748-760 | labor is billed entry by entry, hours times rate, rounded |
| `Billing.FundingNeverExceeded` | finance_engines/billing.py:546-583 | over any life of a contract, with limits that come, go, rise or fall: after each period that has a limit total gross is within it if and only if the limit was, on arrival, at least what had been billed before (or a negative bill brings the total back within it) |
| `Billing.CeilingNeverExceeded` | finance_engines/billing.py:696-862 | the same for the ceiling, after every period that carries one: cost-plus, T&M and labor-hour periods need room on arrival, fixed-price periods must fit as FixedPriceWithinCeilingIff says |
| `Billing.FundingKeptWhileLimitsRise` | finance_engines/billing.py:546-583 | limits that are present, start at zero or more and never fall are never passed |
| `Billing.CeilingKeptWhileLimitsRise` | finance_engines/billing.py:696-862 | the same for ceilings |
| `Billing.LoweredLimitIsPassed` | finance_engines/billing.py:546-583 | a concrete life: a limit lowered below what was billed is passed |
| `Billing.TotalFeeWithinCeilingIff` | finance_engines/billing.py:471-515 | the total fee of a contract stays within the fee ceiling if and only if every raw fee fits what the earlier ones left or they earned nothing, since each bill passes a cumulative fee of zero |
| `Billing.FeePassesItsCeiling` | finance_engines/billing.py:682-686 | a concrete life: two fees of 60 under a fee ceiling of 100 |
| `Billing.FeeOfBill` | finance_engines/billing.py:682-686 | the fee of a cost-plus bill is one such period, taken of its cost |
| `Billing.FeeWouldStayWithin` | finance_engines/billing.py:471-515 | told what was earned before, the fee calculation would keep the total within the ceiling |
| `Billing.FixedPriceIgnoresCeiling` | finance_engines/billing.py:879-926 | a fixed-price bill does not depend on the ceiling |
| `Billing.FixedPriceWithinCeilingIff` | finance_engines/billing.py:879-926 | a fixed-price bill stays within its ceiling if and only if its milestones do by themselves, or the funding limit and what was billed before are both within it |
| `Billing.FixedPriceCanPassCeiling` | finance_engines/billing.py:879-926 | a concrete fixed-price bill above its ceiling |
| `Timesheet.DayOverlaps` | finance_engines/timesheet_compliance.py:225-237 | the reported pairs are exactly the pairs of entries that overlap under different charge codes |
| `Timesheet.OverlapIff` | finance_engines/timesheet_compliance.py:249-254 | two shifts overlap if and only if they share an instant; shifts that only touch do not |
| `Timesheet.ConflictIff` | finance_engines/timesheet_compliance.py:219-236 | entries conflict if and only if both are timed, under different charge codes, with a common instant |
| `Timesheet.GroupByDate` | finance_engines/timesheet_compliance.py:208-211 | each date is mapped to exactly its entries in order |
| `Timesheet.PairsOfDay` | finance_engines/timesheet_compliance.py:208-237 | grouping by date and dropping untimed entries loses no conflicting pair and invents none |
| `Timesheet.DetectConcurrentOverlaps` | finance_engines/timesheet_compliance.py:185-246 | the reported pairs are exactly the pairs of timed entries of one date that overlap under different charge codes, and the result is valid if and only if there is none |
| `Timesheet.SumByDate` | finance_engines/timesheet_compliance.py:275-277 | each date is mapped to the sum of its hours |
| `Timesheet.ValidateDailyHours` | finance_engines/timesheet_compliance.py:262-284 | violations are exactly the dates worked whose hours exceed the limit, with their hours |
| `Timesheet.Packing` | finance_engines/timesheet_compliance.py:249-254 | disjoint intervals that end by a bound have total length at most the bound |
| `Timesheet.ExcessMeansSameCodeOverlap` | finance_engines/timesheet_compliance.py:208-284 | if the overlap check accepts honestly timed entries and a date still exceeds 24 hours, two entries of that date overlap under the same charge code |
| `Timesheet.OverlapCheckImpliesDailyCheck` | finance_engines/timesheet_compliance.py:208-284 | with distinct charge codes per date the overlap check implies the 24-hour check |
| `Timesheet.SameCodeEscapesOverlapCheck` | finance_engines/timesheet_compliance.py:230-232 | a concrete failure without that: one shift entered twice under one code |
| `Timesheet.OneCodeNeverConflicts` | finance_engines/timesheet_compliance.py:230-232 | entries that share one charge code always pass the overlap check |
| `PeriodClose.ClosedIsForever` | finance_kernel/services/period_service.py:218-397 | over any sequence of period-service calls a closed period stays closed, a locked one stays as it is, and the close lock is held exactly while the period is closing |
| `PeriodClose.PerformIs` | finance_kernel/services/period_service.py:218-397 | what each period-service call asks of the period and what it makes of it |
| `PeriodClose.AuthorityIs` | finance_services/period_close_orchestrator.py:85-93 | which role may run which phase |
| `PeriodClose.CloseSubledgers` | finance_services/period_close_orchestrator.py:488-548 | succeeds if and only if every subledger closes, and lists those that did in closing order |
| `PeriodClose.AllInOrder` | finance_services/period_close_orchestrator.py:488-548 | when all close, the list is the whole closing order |
| `PeriodClose.BuildCertificate` | finance_services/period_close_orchestrator.py:761-826 | counts completed and skipped phases, and repeats the subledgers, adjustments and closing entries of phases 1, 3 and 4 |
| `PeriodClose.CountsInOrder` | finance_services/period_close_orchestrator.py:788-826 | of the first n phases in order exactly those that may be skipped are counted as skipped |
| `PeriodClose.CompletesInFull` | finance_services/period_close_orchestrator.py:788-952 | six phases in order certify as 6 + 0 at year end and 4 + 2 otherwise, with the subledgers, adjustments and entries the services reported |
| `PeriodClose.ClosedBeforeLock` | finance_services/period_close_orchestrator.py:686-755 | once phase 5 has passed, phase 6 finds the period closed whatever other sessions do, and leaves it locked at year end |
| `PeriodClose.ClosePassesIff` | finance_services/period_close_orchestrator.py:686-715 | phase 5 passes if and only if the period is not closed yet, whoever holds its lock |
| `PeriodClose.LockPassesIff` | finance_services/period_close_orchestrator.py:717-755 | phase 6 passes if and only if it is not year end or nobody has locked the period yet |
| `PeriodClose.BooksReadyIff` | finance_services/period_close_orchestrator.py:473-684 | phases 1, 2 and 4 pass if and only if every subledger closes, the trial balance balances and, at year end, the closing entries are posted; phase 3 always passes |
| `PeriodClose.AllPass` | finance_services/period_close_orchestrator.py:880-952 | a run passes all phases only with its books ready, and left alone always does then |
| `PeriodClose.LockIsTakenOver` | finance_services/period_close_orchestrator.py:373-423 | a run whose lock another session cancels and takes before phase 5 closes the period all the same |
| `PeriodClose.FailureChangesNothing` | finance_services/period_close_orchestrator.py:686-755 | a phase that fails leaves the period as it found it |
| `PeriodClose.QuietKeepsLock` | finance_services/period_close_orchestrator.py:473-684 | without interference the lock is still held by the run before each of phases 1 to 5 |
| `PeriodClose.QuietCloses` | finance_services/period_close_orchestrator.py:686-755 | without interference phases 3, 5 and 6 cannot fail |
| `PeriodClose.PeriodCloseOrchestrator.BeginClose` | finance_services/period_close_orchestrator.py:373-423 | takes the lock if and only if the actor is at least a preparer and the period is open, with the exact error otherwise |
| `PeriodClose.PeriodCloseOrchestrator.RunPhase` | finance_services/period_close_orchestrator.py:429-471 | enforces authority but not order, with the exact error of a refusal or a raising callback; the result and the period after it are those of the phase |
| `PeriodClose.PeriodCloseOrchestrator.RunPhases` | finance_services/period_close_orchestrator.py:893-925 | the phase loop: results in order up to the first phase that fails or raises, with the phases passed and the period left at that point |
| `PeriodClose.StoppedMeans` | finance_services/period_close_orchestrator.py:880-952 | where a run stops, in terms of the role, the callback and the phases that pass |
| `PeriodClose.PeriodCloseOrchestrator.ClosePeriodFull` | finance_services/period_close_orchestrator.py:880-952 | with other sessions acting on the period before every phase: completes if and only if an approver runs it on an open period and all six phases pass, for a run left alone if and only if the books are ready, then certified; failure at p means p-1 ordered successes, no certificate and a period this run has closed only if p is 6; a preparer or reviewer is refused at phase 5, and a raising callback stops the run at phase 3, if and only if the phases before pass, with the lock taken; re-closing raises; other periods are untouched |
| `Ice.CompileScheduleA` | finance_engines/ice.py:717-791 | one line per contract; column totals are the sums of the columns and together the sum of the line totals |
| `Ice.GroupLabor` | finance_engines/ice.py:812-826 | each contract and category is mapped to the hours, amount and staff of its details, and only charged keys are present |
| `Ice.OneMoreDetail` | finance_engines/ice.py:812-826 | hours and amounts of details are added up as they are, in total and per contract and category |
| `Ice.GroupingConserves` | finance_engines/ice.py:812-850 | for any order of distinct keys covering the details, the grouped hours and amounts add up to the ungrouped ones |
| `Ice.GroupingOneMore` | finance_engines/ice.py:812-850 | one more detail is counted once if its key is listed and not at all otherwise |
| `Ice.SortedElements` | finance_engines/ice.py:831-831 | a set is listed without repetition in order |
| `Ice.SummarizeGroups` | finance_engines/ice.py:831-850 | one line per key with that group's figures, and the running total of the groups |
| `Ice.CompileScheduleB` | finance_engines/ice.py:794-862 | lines are strictly ordered, one for each charged contract and category with its work, its average rate rounded and its number of people, and the totals equal the ungrouped sums |
| `Ice.CompileScheduleC` | finance_engines/ice.py:865-922 | one line per cost as given, and totals by element that add up to the sum of all amounts |
| `Ice.CompileScheduleH` | finance_engines/ice.py:967-1015 | one line per contract and pool, the total indirect cost, and per contract number the sum of its charges |
| `Ice.HLineIs` | finance_engines/ice.py:986-1003 | each line charges the claimed rate on the base of the contract for the pool, rounded |
| `Ice.PoolBases` | finance_engines/ice.py:1192-1206 | the base by pool name in any case: labor, material or all direct cost |
| `Ice.ChargePools` | finance_engines/ice.py:1049-1056 | the indirect cost of one contract over all pools |
| `Ice.CompileScheduleI` | finance_engines/ice.py:1018-1095 | one line per contract with direct plus indirect as cost and claim, and grand totals that agree with the lines |
| `Ice.AbsorptionBound` | finance_engines/ice.py:986-1008 | charging a pool contract by contract differs from charging its whole base at once by at most half a minor unit per contract |
| `Ice.ClaimWithinBill` | finance_engines/ice.py:1168-1206 | at the same rates a contract never claims more indirect cost than the billing engine charges, and as much if and only if rounding hides the missing part of the overhead and G&A bases |
| `Ice.ClaimBelowBill` | finance_engines/ice.py:1192-1201 | a concrete difference: 1.50 claimed where 2.00 is billed |
| `Ice.CompileScheduleJ` | finance_engines/ice.py:1098-1160 | a line per record that repeats its figures, remaining funding negative if and only if incurred exceeds funded, utilization above 90% exactly as UtilizationThreshold says, and the totals of funded, incurred and billed |
| `Ice.UtilizationIs` | finance_engines/ice.py:1119-1135 | in whole numbers: twice the difference between the utilization times the funding and ten thousand times the incurred cost is at most the funding, ties away from zero, and zero without funding |
| `Ice.UtilizationThreshold` | finance_engines/ice.py:1119-1135 | since utilization is rounded first, the 90% test holds if and only if incurred is at least 90.005% of a positive funding |
| `Ice.JFindings` | finance_engines/ice.py:1296-1325 | reports exactly the strained and the overrun lines |
| `Ice.MissingContracts` | finance_engines/ice.py:1285-1294 | reports exactly the contracts of Schedule A that are not in Schedule I |
| `Ice.CompareTotals` | finance_engines/ice.py:1250-1283 | reports exactly the disagreements of labor, other direct and indirect totals that are due |
| `Ice.Validate` | finance_engines/ice.py:1214-1333 | the findings reported are exactly those due from the schedules |
| `Ice.CompileSchedules` | finance_engines/ice.py:600-660 | H and I agree on indirect cost and A and I on direct cost, in total and per contract, and A lists the contracts of I |
| `Ice.ErrorsAreOverruns` | finance_engines/ice.py:1278-1325 | on schedules of one input the error findings are exactly the contracts with incurred above funded |
| `Ice.WarningsTraced` | finance_engines/ice.py:1250-1310 | each warning is due if and only if the inputs disagree on labor or other direct cost, or a contract is strained |
| `Ice.CompileSubmission` | finance_engines/ice.py:600-709 | is_valid holds if and only if no ceiling record has incurred above funded; the claim is direct cost of A plus indirect cost of H, and the unallowable total is that of the input |

## Left out

- Decimal's 28-digit context: rates, ratios and hours are exact reals, and amounts whole minor units.
- Currencies: every amount of a calculation is in one currency, so currency-mismatch errors do not arise; compensating entries are still netted per account and currency.
- Python's parsing of link metadata: only the recorded amount is modelled, as an integer.
- Row order of the database: links are read in the order they were written.
- Where-clause expressions: a payload is a predicate on clauses, so regular expressions and string coercion are not modelled.
- String case: upper() and lower() act on ASCII letters, and strip() on ASCII white space.
- Rbac.CompileRbac: errors already collected by earlier compilation stages are not part of it, and soft conflicts, lifecycle conflicts and override expiry are carried by the source without being used in the check.
- Billing.TotalFeeWithinCeilingIff: one ceiling for all periods, costs and fee rates not negative.
- Timesheet.OverlapCheckImpliesDailyCheck: assumes that claimed hours equal the length of the interval, which the source does not check; it goes one way, since overlapping entries on one code may still fit in a day.
- Reconciliation.NoOverapplication: speaks of calls that agree on the original amount, as the service takes that amount from its caller.
- PeriodClose.PeriodCloseOrchestrator.RunPhase: the answers of subledger, reporting and ledger services are parameters, an adjustment callback either counts or raises and does not touch the period, and the ledger hash, trial balance totals and audit events are left out.
- Corrections without a journal writer: the model always writes the planned entries, as the service does when given a writer.
- Interleaved corrections: plans built before another correction executes re-check only their root, so runs consist of voids planned and executed back to back.
- adjust_document and the selective strategy of corrections: their execution is that of a plan already modelled.
- Three-way matching, bank matching, health checks and correction chains: queries without state of their own.
- Schedule G of the cost submission: one line per pool without arithmetic.
- Approval rules, guard expressions, engine parameter schemas, configuration loading, fingerprints and checksums: validation of shapes and opaque hashing.
- The remaining engines (matching, variance, aging, expense and rate compliance, valuation, subledger): they would only add easy members.
- Persistence, logging, tracing, clocks and identifiers: outside the model; identifiers are numbers or strings given by the caller.
