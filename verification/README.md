# sub2api: eager loading, bulk creation and the audit gate

A Dafny model of three parts of sub2api that carry real algorithms, with proofs about every input and every run.

**Eager loading** (`backend/ent/account_query.go`, `accountgroup_query.go`, `authidentity_query.go`). A query builder
selects rows and then, for each edge that was asked for, joins in memory: it collects keys from the loaded nodes, pushes
an IN condition into the builder of the edge, runs that builder, and hands its rows back through a map. Account queries
nest to any depth through the parent and children edges, and a run changes the builders below it. `QueryPlans` gives the
meaning of a builder as a plan and of a run as object trees (`Batch`), together with the plan that a run leaves behind
and the number of queries it sends, at most one an edge whatever the number of nodes. `Entities` and `AccountQueries`
are the objects: builders with their fields, loaders that loop over nodes and fill in edges; `AccountQuery.All` is
proved to return exactly the trees of `Batch`. `EagerLaws` proves that `Batch` is the naive definition, in which every
node looks up each of its edges on its own. `EdgeLaws`, `LimitLaws` and `RunLaws` hold the laws of single edges, of
limits on sub-queries, of running a builder again and of projection. `ReadLaws` leads what a run returns back to the
store: which rows a query selects, and what each returned object shows of its row. `PlanEdits` and `QuerySessions` are
builder calls, `Clone`, `First` and `Only`. `IdentityQueries` is the identity query with its required and nullable
foreign keys.

**Creating accounts** (`backend/ent/account_create.go`, `account.go`, `ent.go`). `AccountRows` scans rows into entities
and writes the specification of a new row, `AssignLaws` says what each cell of a row does to the entity;
`AccountCreation` holds `defaults` and `check`. A bulk save builds a chain of
mutators: each validates its builder, stores its specification and calls the next one, the last one performs the one
batch insert, and every mutator is wrapped in its builder's hooks. `Mutators` is that chain as a machine in which a hook
may call the rest any number of times, edit its builder's mutation before each call, answer anything, and look at the
whole history; `BulkCreate` is the same chain on mutable mutations and shared arrays, each step proved equal to the
machine's. `MutatorLaws`, `HookLaws` and `SaveLaws` hold the laws.

**The audit gate** (`tools/check_pnpm_audit_exceptions.py`). `AuditParser` is the line-oriented parser of the exception
list with the rendering it inverts, `AuditReport` the vulnerabilities that a report yields, `AuditGate` the two loops
and a policy that knows neither index nor loop, `AuditLaws` what order, repetition and further exceptions change.
`ParserLaws`, `ReportLaws` and `GateLaws` say the same on characters, on members of the report, and on the fields of
exceptions and findings.

Where a promise fails, the model keeps the code, gives a failing input and states the exact condition:

- A limit on a children query is a limit on the whole batch: `LimitLaws.LimitLosesChild` loses a child,
  `LimitLaws.LimitExactly` says when the limit makes no difference.
- The done builders of a bulk need not form a suffix: `MutatorLaws.SilentSuccess` is a list for which they do not.
  Honest hooks from the second builder on, even ones that edit and retry, guarantee it (`MutatorLaws.ShapeFrom`), and
  for lists of the five plain kinds of hook `HookLaws.SuffixExactly` says exactly when it holds.
- A single Save and a bulk of one differ on a hook that answers without an account, since the Save tests the value and
  the bulk drops it (`SaveLaws.SilentHookDiffers`). `SaveLaws.SaveLikeBulkOfOne` compares the two under any hooks, and
  for lists of the five plain kinds `SaveLaws.SavesAgreeExactly` says, from the list alone, exactly when they agree.
- The gate looks at the first occurrence of a finding only: `AuditLaws.ReportOrderMatters` gives two reports with
  different verdicts, `AuditLaws.OrderDecides` says exactly when the order of the findings decides.
- A numeric advisory source, which the comment at line 128 of the script expects, raises an exception in
  `AuditReport.NumericSourceRaises`. `AuditReport.NumericSourceExactly` says exactly when, and
  `AuditReport.RaisesExactly` when any report raises.
- The comment on `Clone` promises a duplicate of the builder; lock modifiers are not copied
  (`PlanEdits.CloneDropsLock`), so it is one exactly when no query of the tree locks rows (`PlanEdits.CloneIsSame`).

A package whose via list names no advisory is invisible to the gate (`AuditReport.YieldsNothing`).

What the code needs from outside is a parameter: the store (every table in the order that a list of order terms imposes,
with unique primary keys, ordering only rearranging rows), WHERE callbacks as predicates on rows, the answer of the
database to a batch insert, the JSON codec, validators and default functions, `str.lower`, `str()` of values that are
not strings, `date.fromisoformat` and today's date.

## Model

| member | source | states |
|---|---|---|
| HashJoin.CollectKeys | backend/ent/account_query.go:720-735 | The first half of an M2O loader: the key list is the non-null keys in first-use order, the index leads from each key to the positions that use it |
| HashJoin.IndexByID | backend/ent/account_query.go:752-761 | The first half of an O2M loader: every ID leads to the last node that has it |
| HashJoin.PositionsExact | backend/ent/account_query.go:720-750 | The positions under a key are exactly those whose foreign key it is |
| HashJoin.FirstUseOnce | backend/ent/account_query.go:723-731 | The pushed key list has no duplicates |
| EdgeLaws.FirstUseInOrder | backend/ent/account_query.go:723-731 | The pushed keys stand in the order of their first use |
| QueryPlans.ChildrenKnown | backend/ent/account_query.go:762-782 | With the pushed projection and the pushed IN condition every loaded child has a non-null key of the batch, so neither error of loadChildren is reached |
| QueryPlans.ParentsWanted | backend/ent/account_query.go:736-749 | Every loaded parent is one that some node of the batch refers to, so the unexpected-key error is not reached |
| QueryPlans.JoinsKnown | backend/ent/account_query.go:825-842 | The same for the join rows, whose account_id is always among the selected columns |
| QueryPlans.BatchIDsDistinct | backend/ent/account_query.go:550-593 | The decoded nodes of a run have distinct IDs whatever fields were selected |
| Entities.AppendGroup | backend/ent/account_query.go:677-685 | The nodes waiting for a group are visited in any order, and each gets the group once, at the end of its list |
| Entities.IndexPairs | backend/ent/account_query.go:650-672 | Scanning the stream of pairs gives each group once, at its first appearance, and for each group exactly the nodes paired with it |
| Entities.DistributeGroups | backend/ent/account_query.go:677-686 | Each node ends with exactly the groups its ID is paired with, in stream order, although repeated rows are scanned |
| Entities.DistributeProxies | backend/ent/account_query.go:709-718 | Each node gets the neighbour whose ID is its key, if there is one; the error branch is unreachable |
| Entities.DistributeParents | backend/ent/account_query.go:741-750 | The same for parents, as references |
| Entities.DistributeChildren | backend/ent/account_query.go:772-783 | Each node ends with the neighbours that carry its ID, in their order; both error branches are unreachable |
| Entities.DistributeJoins | backend/ent/account_query.go:835-843 | The same for join rows |
| AccountQueries.QueryContext.AppendFieldOnce | backend/ent/account_query.go:762-764 | The foreign-key column is added to a projection unless it is there |
| AccountQueries.AccountGroupQuery.All | backend/ent/accountgroup_query.go:308-377 | A run of the join query returns one new object a row with its group edge loaded, fails exactly on an invalid field, and leaves the plan after the run behind, failed or not |
| AccountQueries.AccountGroupQuery.SpecColumns | backend/ent/accountgroup_query.go:448-489 | The selected columns: no ID in front, group_id added if the group edge is requested |
| AccountQueries.AccountGroupQuery.LoadGroup | backend/ent/accountgroup_query.go:408-436 | Every join row gets the group of its key that the batch query found |
| AccountQueries.AccountQuery.SpecColumns | backend/ent/account_query.go:858-886 | The loop selects the plan's columns |
| RunLaws.ColumnsExact | backend/ent/account_query.go:866-882 | The columns start with the ID, contain it once, and are otherwise exactly the selected fields and the foreign keys that the requested edges need |
| AccountQueries.AccountQuery.LoadGroups | backend/ent/account_query.go:627-687 | Every node gets the groups of the joined stream for its ID; the group query keeps the join callback |
| AccountQueries.AccountQuery.LoadProxy | backend/ent/account_query.go:688-719 | Every node gets the proxy of its key from the batch; no sub-query runs if every key is NULL |
| AccountQueries.AccountQuery.LoadParent | backend/ent/account_query.go:720-751 | After the recursive run every node's parent shows the tree that the batch gives its key; failure is exact, and so is the sub-builder's new plan, failed or not |
| AccountQueries.AccountQuery.LoadChildren | backend/ent/account_query.go:752-784 | After the recursive run every node's children show the trees that the batch gives its ID; failure is exact, and so is the sub-builder's new plan, failed or not |
| AccountQueries.AccountQuery.LoadAccountGroups | backend/ent/account_query.go:815-844 | The same for join rows with their groups |
| AccountQueries.AccountQuery.EagerLoad | backend/ent/account_query.go:590-624 | The edges in sqlAll's order: every edge of every node, or failure at the first edge that fails, which leaves the later edges' builders untouched |
| AccountQueries.AccountQuery.All | backend/ent/account_query.go:524-625 | A run fails exactly on an invalid field of a query it reaches; otherwise the new objects show, at every depth, the trees of the hash-join semantics; either way the builder tree is the plan after the run, with what was pushed up to the failing edge, and the number of queries sent is exact |
| ReadLaws.PassesExactly | backend/ent/account_query.go:881-887 | A row passes a query iff it meets every condition: a callback's, and for an IN condition that its column is not NULL and in the list |
| ReadLaws.WindowExactly | backend/ent/account_query.go:888-893 | Offset and limit: so many rows are skipped, then no more than so many are left; a limit of zero is none |
| ReadLaws.PagesCover | backend/internal/repository/account_repo.go:1254-1256 | Page after page of any size, no row is lost or repeated |
| ReadLaws.ExecExactly | backend/ent/account_query.go:881-900 | The rows a query selects are, in the order it asks for, the rows of the table that meet every condition, cut to its window |
| ReadLaws.StreamWindow | backend/ent/account_query.go:627-672 | The window of a group query is a window on the joined rows of the whole batch |
| ReadLaws.ColumnsNamed | backend/ent/account/account.go:132-165 | Without a projection every column of the entity is selected under its name, each once and in the entity's order |
| ReadLaws.DecodeReads | backend/ent/account_query.go:564-572 | A decoded account shows under exactly the columns that its query selects the cells of its row: all columns without a projection, else the ID, the selected fields and the foreign keys that its edges need |
| ReadLaws.JoinDecodeReads | backend/ent/accountgroup_query.go:448-489 | The same for a join row, whose projection gets account_id from the loader and group_id from the group edge |
| ReadLaws.BatchReads | backend/ent/account_query.go:550-625 | Whatever is projected at whatever level, and whatever windows there are, every account and join row of every tree shows its row of the store, the one that its place in the tree stands for |
| EagerLaws.SelectPart | backend/ent/account_query.go:765-783 | The rows of a query for many keys that carry one of them are, in order, the rows of the query for that key alone |
| EagerLaws.RefinesProxy | backend/ent/account_query.go:688-719 | The batched proxy is the node's own lookup |
| EagerLaws.RefinesParent | backend/ent/account_query.go:720-751 | The batched parent is the node's own lookup, if the level below refines |
| EagerLaws.RefinesChildren | backend/ent/account_query.go:752-784 | The batched children are the node's own lookup, if the level below refines |
| EagerLaws.RefinesJoins | backend/ent/account_query.go:815-844 | The batched join rows with their groups are the node's own lookup |
| EagerLaws.PairedStream | backend/ent/account_query.go:638-672 | The joined stream pairs an account of the batch with a group exactly if the join table links them and the group passes |
| EagerLaws.RefinesGroups | backend/ent/account_query.go:627-687 | The de-duplicated M2M result is the groups linked to the account, in table order |
| EagerLaws.RefinesTree | backend/ent/account_query.go:550-625 | One node of a batch: all five edges are its own lookups |
| EagerLaws.Refines | backend/ent/account_query.go:550-625 | For every plan tree without nested windows, every store and every batch, hash-join loading equals per-node lookup at every level |
| QuerySessions.LoadGraph | backend/ent/account_query.go:550-625 | What a run returns, as an object graph, is at every depth what the nodes would look up one by one, although the run sends no query of the plan twice; each object shows its row of the store under the selected columns and nothing else, and so do loaded parents, children and join rows |
| QueryPlans.EachSentOnce | backend/ent/account_query.go:590-784 | Whatever the store and the number of nodes, a run sends each query of its plan tree at most once |
| EdgeLaws.ParentTrichotomy | backend/ent/account.go:129-138 | On a loaded node ParentOrErr is not-loaded iff the edge was not requested, not-found iff it was and no row has the key and passes, and otherwise the node of that row |
| EdgeLaws.ProxyTrichotomy | backend/ent/account.go:118-127 | The same for ProxyOrErr, which returns p iff p has the key and passes the sub-query |
| EdgeLaws.ChildrenAnswer | backend/ent/account.go:140-147 | ChildrenOrErr is not-loaded iff the edge was not requested, and otherwise the children that the node's own lookup finds |
| EdgeLaws.ChildExactly | backend/ent/account_query.go:752-784 | An account is among a node's children iff its key is the node's ID and it passes the children query |
| EdgeLaws.ParentExactly | backend/ent/account_query.go:720-751 | An account is a node's parent iff it has the node's key and passes the parent query |
| EdgeLaws.ChildrenInvertParent | backend/ent/account_query.go:720-784 | b is a child of a iff a is the parent of b, up to what the two sub-queries filter out |
| EdgeLaws.PartsSplit | backend/ent/account_query.go:752-784 | For distinct nodes the parts of an O2M load together are the neighbour list as a multiset, and each keeps its order |
| EdgeLaws.NeighborsExact | backend/ent/account_query.go:650-672 | The neighbours of any stream are its groups, each once, by first appearance |
| EdgeLaws.GroupsOfExact | backend/ent/account_query.go:650-686 | For every stream an account gets exactly the groups paired with it, each once though rows repeat, by first appearance |
| EdgeLaws.TwoRoutesAgree | backend/ent/accountgroup_query.go:408-436 | The M2M edge and the detour through the join entity reach the same groups; with unique pairs, equally often |
| LimitLaws.LimitCounts | backend/ent/account_query.go:888-890 | Cutting a batch at n rows and cutting each key's part at n agree iff at most n rows were selected or all carry one key |
| LimitLaws.LimitExactly | backend/ent/account_query.go:752-784 | Under a limit on the children query every parent gets its own limited lookup iff the batch selects no more rows than the limit or all belong to one parent |
| LimitLaws.LimitLosesChild | backend/ent/account_query.go:752-784 | Two parents with one child each and a limit of one: the second parent gets no child from the batch, and one from its own lookup |
| RunLaws.Rerun | backend/ent/account_query.go:752-768 | After a first run, failed or not, the trees of the same rows are the same although conditions and fields were pushed |
| RunLaws.RerunFails | backend/ent/account_query.go:524-548 | On the builder that a first run left behind, failed or not, a second run fails exactly if the first did |
| RunLaws.RunsAgree | backend/ent/account_query.go:704-768 | After any number of runs over an unchanged store, failed or not, the next one fails exactly if the first did and else returns its trees, for plans without the M2M edge |
| RunLaws.SelectingFieldsKeepsEdges | backend/ent/account_query.go:866-882 | Whatever fields the queries of a tree select, at any level, the same edges are loaded |
| AccountQueries.AccountQuery.Where | backend/ent/account_query.go:44-47 | Conditions are appended and nothing else changes |
| AccountQueries.AccountQuery.Limit | backend/ent/account_query.go:50-53 | The limit is replaced and nothing else changes |
| AccountQueries.AccountQuery.Offset | backend/ent/account_query.go:56-59 | The offset is replaced and nothing else changes |
| AccountQueries.AccountQuery.Order | backend/ent/account_query.go:69-72 | Order terms are appended and nothing else changes |
| AccountQueries.AccountQuery.Select | backend/ent/account_query.go:511-517 | Fields are appended and nothing else changes |
| AccountQueries.AccountQuery.Lock | backend/ent/account_query.go:942-963 | A lock modifier is appended; of what the model has, nothing else changes |
| AccountQueries.AccountQuery.WithParent | backend/ent/account_query.go:434-441 | The options configure a new sub-builder, which replaces the one there was; the builders still form a tree |
| AccountQueries.AccountQuery.WithChildren | backend/ent/account_query.go:445-452 | The same for children |
| AccountQueries.AccountQuery.WithAccountGroups | backend/ent/account_query.go:467-474 | The option calls configure a new join builder, which replaces the one there was; the builders still form a tree |
| AccountQueries.AccountGroupQuery.Clone | backend/ent/accountgroup_query.go:220-236 | A copy on new objects without the lock modifiers |
| AccountQueries.AccountQuery.Clone | backend/ent/account_query.go:388-408 | A deep copy of the whole builder tree on new objects, equal but for the lock modifiers |
| PlanEdits.CloneIsSame | backend/ent/account_query.go:386-408 | The clone is the same builder iff no query of the tree has lock modifiers |
| PlanEdits.CloneDropsLock | backend/ent/account_query.go:388-408 | A query that locks rows is not the same as its clone, which has lost the lock |
| PlanEdits.CloneMeansSame | backend/ent/account_query.go:388-408 | The clone selects the same rows and gives them the same trees |
| PlanEdits.CloneFailsSame | backend/ent/account_query.go:388-408 | The clone fails exactly if the original does |
| QuerySessions.CloneThenAct | backend/ent/account_query.go:386-474 | After any interleaving of builder calls and runs on an original and its clone the two share no object, and each is what its own calls and runs made of it |
| QuerySessions.RunAgain | backend/ent/account_query.go:550-625 | Executing one builder any number of times returns or fails each time as the first execution does, and leaves the plan of that many runs |
| QuerySessions.First | backend/ent/account_query.go:208-217 | The first remaining row, or not-found iff there is none; the limit of one stays on the builder |
| QuerySessions.Only | backend/ent/account_query.go:254-267 | The account iff exactly one row remains after the offset, not-found iff none, not-singular iff several, whatever limit was set before; the limit of two stays |
| PlanEdits.TwoTellApart | backend/ent/account_query.go:254-267 | Two rows are enough to tell none, one and several apart |
| IdentityQueries.LoadUser | backend/ent/authidentity_query.go:500-528 | Every identity gets the user of its key that the batch query found; the error branch is unreachable |
| IdentityQueries.UserExactly | backend/ent/authidentity_query.go:500-528 | Without limit or offset that user is the one the identity's own lookup finds |
| IdentityQueries.LoadChannels | backend/ent/authidentity_query.go:529-558 | Every identity ends with the channels that carry its ID, in their order; the error branch is unreachable |
| IdentityQueries.LoadAdoptionDecisions | backend/ent/authidentity_query.go:559-591 | The same for decisions, whose key can be NULL: the nil-key error is unreachable |
| IdentityQueries.OwnedExactly | backend/ent/authidentity_query.go:529-591 | An identity's part of the batch is what its own query finds, for a required or nullable key and any selected fields |
| IdentityQueries.OwnedSplit | backend/ent/authidentity_query.go:529-591 | The identities' parts lose no neighbour and repeat none, and each keeps the order |
| AccountRows.ScanValues | backend/ent/account.go:168-189 | One destination a column, of the column's type |
| AccountRows.Record.AssignValues | backend/ent/account.go:193-417 | The loop assigns column by column, a document into the map that is there, and stops at the first error with what it had assigned |
| AccountRows.AssignExactly | backend/ent/account.go:193-417 | Assignment succeeds iff every cell has its column's type and every document decodes |
| AssignLaws.ErrorExactly | backend/ent/account.go:193-417 | The error is that of the first cell that is not of its column's type or does not decode, an unexpected type before a bad document, and the columns before it have been assigned |
| AssignLaws.LengthExactly | backend/ent/account.go:194-196 | Exactly a row that is shorter than the column list gives the length error, and it leaves the entity as it was |
| AssignLaws.CellAfterCell | backend/ent/account.go:198-415 | Each cell changes its own column only: to its content, for NULL not at all except that the ID becomes zero, for a document by adding its keys to those held or replacing them, null emptying the column |
| AssignLaws.RowShown | backend/ent/account.go:193-417 | After a row without repeated columns each column has become what its own cell says, and one that was not read is as it was |
| AccountRows.DecodeAgrees | backend/ent/account.go:168-417 | For every column list, cells typed by scanValues never give a length or type error, and succeed iff the documents decode |
| AccountRows.AllSettable | backend/ent/account_create.go:682-806 | createSpec leaves out no field that a mutation can hold |
| AccountRows.InsertedShown | backend/ent/account_create.go:682-857 | A column of the inserted row holds what the returned entity shows: fields, M2O keys, NULL where unset |
| AccountRows.ReadBack | backend/ent/account_create.go:682-857 | The row inserted from createSpec, read through any list of columns, is the entity that createSpec returned, cut to those columns |
| AccountRows.ReadBackWhole | backend/ent/account_create.go:682-857 | With all columns it is that entity with its new ID |
| AccountCreation.DefaultsOnlyAdd | backend/ent/account_create.go:527-585 | Defaults change no field that was set and set another only to its default |
| AccountCreation.DefaultsComplete | backend/ent/account_create.go:527-585 | Defaults succeed iff no unset field lacks its default function, and iff every defaulted field is set afterwards |
| AccountCreation.DefaultValues | backend/ent/account_create.go:527-585 | After successful defaults, field by field: what was set stays, and what was not has this field's default; the quota dimension has global |
| AccountCreation.DefaultsIdempotent | backend/ent/account_create.go:527-585 | Defaults applied twice are defaults applied once, with the same verdict |
| AccountCreation.CheckExactly | backend/ent/account_create.go:588-662 | check succeeds iff every column passes, and otherwise names the first that does not |
| AccountCreation.CheckDemands | backend/ent/account_create.go:588-662 | check succeeds iff fourteen named fields are set, name, platform, type, status and a set session window status satisfy their own validators, and the quota dimension is global or spark |
| AccountCreation.DroppedErrorHarmless | backend/ent/account_create.go:2105-2113 | Whatever is set and whichever default functions are missing, if defaults fails then check fails afterwards |
| AccountCreation.BulkAcceptsLikeSave | backend/ent/account_create.go:497-502 | Checking alone accepts a list iff each builder passes both defaults and check |
| AccountCreation.DefaultsTyped | backend/ent/account_create.go:527-585 | Defaults keep every field of its column's type |
| AccountCreation.AcceptedReadsBack | backend/ent/account_create.go:664-857 | The row of an account that Save accepts, read back, is the entity createSpec returned, with every required field set and valid |
| BulkCreate.AccountCreate.Defaults | backend/ent/account_create.go:527-585 | The mutation is filled in place, in order, up to the first missing default function |
| BulkCreate.MutatorChain.Insert | backend/ent/account_create.go:2120-2128 | The batch insert finds no missing entry, gets all specifications in builder order, and fills in the keys it is given |
| BulkCreate.MutatorChain.Finish | backend/ent/account_create.go:2132-2138 | The node takes the key of its entry, the mutation takes the node's ID and is done |
| BulkCreate.MutatorChain.EditDraft | backend/ent/account_create.go:2140-2142 | A hook edits its builder's mutation in place, and no other |
| BulkCreate.MutatorChain.CallHook | backend/ent/account_create.go:2140-2142 | A hook's loop of calls on the rest of the chain is the machine's |
| BulkCreate.MutatorChain.Inner | backend/ent/account_create.go:2106-2139 | The innermost closure of a builder is the machine's core |
| BulkCreate.AccountCreateBulk.Save | backend/ent/account_create.go:2095-2152 | Returns a recorded error untouched; otherwise error, nodes, fields, done marks and IDs are those of the machine's run on the defaulted builders; every inserted row was checked; on builders not yet done and under honest hooks the done marks form a suffix with an insert behind it, and success means all are done and hold the IDs of their nodes |
| MutatorLaws.ChainBudget | backend/ent/account_create.go:2102-2147 | From any point of the chain the batch insert happens at most as often as the product of the calls the hooks allow |
| MutatorLaws.ChainBudgetMet | backend/ent/account_create.go:2102-2147 | Hooks that use all their calls and keep valid mutations valid meet that bound |
| MutatorLaws.BatchesOnce | backend/ent/account_create.go:2095-2152 | If each hook calls the rest at most once, the batch insert happens at most once |
| MutatorLaws.ChainKeeps | backend/ent/account_create.go:2106-2139 | A mutator leaves nodes, done marks and IDs of earlier builders alone, and no builder stops being done |
| MutatorLaws.ShapeFrom | backend/ent/account_create.go:2118-2151 | If the hooks from the second builder on are honest, whatever they edit and however they retry, the done builders form a suffix after any run, and any of them implies a successful batch; if the first builder's are too, success means all are done with nodes and mutations carrying the keys of their entries |
| MutatorLaws.FailureShape | backend/ent/account_create.go:2118-2151 | The same for a run on builders that were not saved before |
| MutatorLaws.SilentSuccess | backend/ent/account_create.go:2118-2138 | A hook of the second builder that reports success without calling the rest leaves the first builder done, the second not, and nothing inserted |
| HookLaws.DataChain | backend/ent/account_create.go:2106-2145 | For hooks that fail before, fail after, pass through, succeed silently or swallow an error, which cores a run completes and how it answers |
| HookLaws.CompletesIff | backend/ent/account_create.go:2106-2145 | A core is completed iff no hook or check up to it blocks and the outermost deciding hooks behind it report success |
| HookLaws.SuffixExactly | backend/ent/account_create.go:2118-2138 | The done builders form a suffix with an insert behind them iff the hook lists say so: no reached builder from the second on has an outermost deciding hook that reports success for what is not done |
| MutatorLaws.WellBracketed | backend/ent/account_create.go:2140-2142 | Whatever hooks do, each is left while it is the innermost open one, and all are left |
| MutatorLaws.OpeningsInOrder | backend/ent/account_create.go:2140-2142 | A builder's hooks enter in list order, all before those of the next builder |
| MutatorLaws.OpeningsComplete | backend/ent/account_create.go:2140-2142 | Exactly the hooks of the builders up to the first invalid one enter |
| MutatorLaws.ClosingsMirror | backend/ent/account_create.go:2140-2142 | Exits are the exact reverse of entries |
| MutatorLaws.PassThroughRun | backend/ent/account_create.go:2095-2152 | With pass-through hooks the event trace is entries, the one batch insert iff all builders are valid with createSpec of every builder in order, exits with each builder's own node and key; the error is that of the first invalid builder; all are done or none |
| SaveLaws.InsertsOnlyChecked | backend/ent/account_create.go:2106-2128 | Whatever hooks call, edit and answer, and however often they retry, every row of every insert is createSpec of a mutation that check accepted as it then was |
| SaveLaws.InsertsComplete | backend/ent/account_create.go:2106-2128 | Whatever hooks call, edit and answer, every row of every insert carries the fourteen required fields, and its name, platform, type, status, session window status and quota dimension are valid |
| SaveLaws.InvalidNeverInserts | backend/ent/account_create.go:2111-2118 | One invalid builder anywhere that its own hooks do not repair and nothing is inserted, whatever hooks call, edit and answer; honest hooks then report failure and none is done |
| SaveLaws.SaveLikeBulkOfOne | backend/ent/ent.go:568-599 | If defaults succeeds, a bulk of one leaves what the builder's own Save leaves, event by event and edit by edit, under any hooks; the two agree on success unless the outermost answer is a success without an account, and return the same iff it is a failure or carries the builder's own node |
| SaveLaws.SilentHookDiffers | backend/ent/ent.go:590-598 | A hook that answers without a value makes the own Save fail and the bulk succeed |
| SaveLaws.SavesAgreeExactly | backend/ent/ent.go:568-599 | For lists of the five plain kinds of hook: own Save and bulk of one agree on success, and after successful defaults return the same, iff the outermost hook that does not pass through reports no success, or check, database and every other hook do too |
| SaveLaws.PassThroughSavesAlike | backend/ent/ent.go:568-599 | With pass-through hooks both return the same account or the same error |
| SaveLaws.FailedDefaultsSaveNothing | backend/ent/account_create.go:497-502 | If defaults fails the own Save fails and inserts nothing; unless its hooks repair the mutation neither does the bulk, which under honest hooks fails too |
| SaveLaws.BulkAcceptsLikeSaves | backend/ent/account_create.go:2105-2113 | With pass-through hooks a bulk reaches its insert iff every builder's own Save would pass defaults and check |
| AuditParser.ParseExceptions | tools/check_pnpm_audit_exceptions.py:23-48 | The loop over lines is the parser's state machine, including the failed split |
| AuditParser.ItemBody | tools/check_pnpm_audit_exceptions.py:33-41 | A stripped item line always has something after its dash, so an opened entry is never empty |
| AuditParser.ParsedExactly | tools/check_pnpm_audit_exceptions.py:23-48 | The parse fails iff some item line has no colon; otherwise there is one entry an item line, made of the pairs up to the next item |
| AuditParser.BodySplits | tools/check_pnpm_audit_exceptions.py:12-20 | A written pair splits into its key and value: between quotes of either kind whatever quotes, colons or outer spaces the value has, and without quotes a value with neither outer spaces nor quotes around it |
| AuditParser.RenderedBlocks | tools/check_pnpm_audit_exceptions.py:23-48 | The blocks of a rendering are the rendered entries, each value in a style of its own |
| AuditParser.RenderThenParse | tools/check_pnpm_audit_exceptions.py:12-48 | Rendering any list of non-empty entries to text, each value plain, single-quoted or double-quoted by choice, and parsing the text gives the entries back |
| ParserLaws.StripMiddle | tools/check_pnpm_audit_exceptions.py:15-29 | What strip cuts off on either side is white space, and what is left has none at its ends |
| ParserLaws.AnyEndings | tools/check_pnpm_audit_exceptions.py:27-28 | However the lines of a text end, with a line feed, a carriage return or both, it is cut into exactly those lines |
| ParserLaws.IdleLines | tools/check_pnpm_audit_exceptions.py:29-45 | Blank lines, comments, the two headers, and lines that are no item and have no colon, may stand anywhere and change nothing |
| ParserLaws.ColonMissing | tools/check_pnpm_audit_exceptions.py:34-41 | One item line without a colon, wherever it stands, fails the parse |
| ParserLaws.ItemLineExactly | tools/check_pnpm_audit_exceptions.py:12-41 | Every item line with a colon parses to one pair: what is before the first colon and what is behind, stripped, the latter without the two quotes of one kind around it; a lone quote leaves nothing |
| ParserLaws.ItemLineParses | tools/check_pnpm_audit_exceptions.py:12-41 | A line with one pair, in any style and with any outer spaces, parses to exactly that pair |
| AuditReport.CollectVulns | tools/check_pnpm_audit_exceptions.py:51-111 | The loops yield both shapes of report, and raise where the shape is unexpected |
| AuditReport.PickExactly | tools/check_pnpm_audit_exceptions.py:51-61 | The identifier is the first candidate that is not empty and empty iff all are; it raises iff there is neither GHSA id nor URL and the cves are neither empty nor a list nor a string |
| AuditReport.AdvisoriesExactly | tools/check_pnpm_audit_exceptions.py:66-78 | The first shape raises iff an entry is no object or has bad cves; otherwise each entry gives one finding, in order |
| AuditReport.PackageExactly | tools/check_pnpm_audit_exceptions.py:82-111 | A package raises iff it is no object or the first non-empty value among title, URL, advisory text and source of a via item is no string |
| AuditReport.PackagesExactly | tools/check_pnpm_audit_exceptions.py:80-111 | The second shape raises iff some package does, and otherwise yields exactly what the packages yield |
| AuditReport.RaisesExactly | tools/check_pnpm_audit_exceptions.py:64-111 | A report raises iff an advisory of the first shape or a package of the second is bad |
| AuditReport.YieldsNothing | tools/check_pnpm_audit_exceptions.py:88-111 | A package yields nothing iff no item of its via list names an advisory; otherwise its own name and severity with each advisory |
| ReportLaws.FalsyExactly | tools/check_pnpm_audit_exceptions.py:53-60 | Exactly null, false, zero and the empty string, list and object count as empty |
| ReportLaws.GetExactly | tools/check_pnpm_audit_exceptions.py:53-83 | A member is the one under its key, or null if there is none |
| ReportLaws.YieldedExactly | tools/check_pnpm_audit_exceptions.py:82-111 | A package yields, in the order of its via items and under its own name and severity, for each object the first non-empty of GHSA id, URL, source, title and name, and for each string the string; a lone string counts as one item |
| ReportLaws.PackagesInOrder | tools/check_pnpm_audit_exceptions.py:80-111 | The packages of a report yield one after the other |
| AuditReport.NumericSourceExactly | tools/check_pnpm_audit_exceptions.py:103-109 | A via item with a non-zero numeric source, whose title, URL and advisory text are empty or strings, raises iff all three are empty |
| AuditReport.NumericSourceRaises | tools/check_pnpm_audit_exceptions.py:88-109 | Such a package: one via item with a numeric source and nothing else |
| AuditGate.IndexExceptions | tools/check_pnpm_audit_exceptions.py:156-185 | The index holds the first valid exception of each key, and each kind of error is reported exactly where it occurs |
| AuditGate.CheckVulns | tools/check_pnpm_audit_exceptions.py:187-219 | The loop with its seen set reports exactly the problems of first occurrences, and raises iff a severity is neither empty nor a string |
| AuditGate.AcceptsExactly | tools/check_pnpm_audit_exceptions.py:142-240 | There is no problem in either loop and nothing raises iff the policy accepts |
| GateLaws.PolicyExactly | tools/check_pnpm_audit_exceptions.py:142-240 | The gate accepts iff, on the fields alone: the five required fields of every exception are given and usable, no two exceptions have the same stripped package and stripped, lower-cased advisory, and the first grave finding of each such pair is excused by one that fits its severity and has not expired |
| GateLaws.OneException | tools/check_pnpm_audit_exceptions.py:112-131 | One usable exception and one grave finding are accepted iff the stripped packages and the stripped, lower-cased advisories are equal, the exception's severity is empty or the finding's, and it has not expired |
| AuditGate.Validate | tools/check_pnpm_audit_exceptions.py:142-240 | The exit code is 0 iff both inputs are readable and the policy accepts them, and the problems reported are those there are |
| GateLaws.ExitCode | tools/check_pnpm_audit_exceptions.py:142-240 | The exit code is 0 iff both inputs are readable and the policy on the fields accepts them |
| AuditLaws.FirstsSuffice | tools/check_pnpm_audit_exceptions.py:192-209 | If findings with one key have one severity, acceptance is that every finding is covered on its own |
| AuditLaws.OrderInsensitive | tools/check_pnpm_audit_exceptions.py:192-219 | Then permuting, repeating or removing findings never turns acceptance into refusal |
| AuditLaws.EveryOrder | tools/check_pnpm_audit_exceptions.py:192-219 | For every report: all orders of its findings are accepted iff each finding is covered on its own |
| AuditLaws.EveryReport | tools/check_pnpm_audit_exceptions.py:192-219 | And so with repetition and removal: every list made of the findings is accepted iff each finding is covered |
| AuditLaws.SomeOrder | tools/check_pnpm_audit_exceptions.py:192-219 | Some order is accepted iff all findings are well formed and each key has a covered one |
| AuditLaws.OrderDecides | tools/check_pnpm_audit_exceptions.py:192-219 | The order of the findings decides the verdict iff each key has a covered finding but not every finding is covered |
| AuditLaws.OrderMatters | tools/check_pnpm_audit_exceptions.py:192-214 | Two severities under one key and an exception for the first: one order is accepted, the other is not |
| AuditLaws.ReportOrderMatters | tools/check_pnpm_audit_exceptions.py:64-219 | Two reports that differ in the order of two advisories, one accepted and one not |
| AuditLaws.FreshException | tools/check_pnpm_audit_exceptions.py:156-185 | A further valid exception under a new key, anywhere in the list, never turns acceptance into refusal |

## Left out

- AccountQueries.AccountQuery.All: requires that no group query of the tree carries a join callback already, because running a builder with the M2M edge again applies that callback a second time inside the SQL library; the usage logs edge is not modelled.
- AccountQueries.AccountQuery.EagerLoad: the usage logs edge, which has the shape of the children edge, is not modelled.
- AccountQueries.AccountQuery.LoadGroups: the joined rows come grouped by group, in the order of the group table; within a group their order does not matter here, but the database could interleave groups.
- AccountQueries.AccountQuery.LoadProxy: the proxy query is a leaf without a projection or edges, so it cannot fail.
- AccountQueries.AccountQuery.Lock: on Postgres the source also sets Unique to false; DISTINCT is not modelled.
- AccountQueries.AccountQuery.Clone: the usage logs sub-builder, interceptors and the path are not modelled.
- AccountQueries.AccountGroupQuery.All: the join entity's account edge, which leads back to the account query by the M2O join of loadParent, is not modelled.
- AccountQueries.AccountGroupQuery.SpecColumns: nor is the account_id column that this edge would add to a projection.
- AccountQueries.AccountGroupQuery.Clone: nor is the account sub-builder, nor interceptors and the path.
- EagerLaws.RefinesGroups: table order, for the reason given at LoadGroups.
- EagerLaws.Refines: plans whose sub-queries have no limit or offset; LimitLaws says what a limit on a children query does.
- EdgeLaws.TwoRoutesAgree: the join query has no conditions of its own, and the two group queries have the same ones.
- RunLaws.RunsAgree: plans without the M2M edge, whose join callback must not be applied twice.
- QuerySessions.RunAgain: the same, and a store that does not change between runs.
- QuerySessions.CloneThenAct: each run is of a builder whose group queries carry no join callback yet.
- BulkCreate.AccountCreateBulk.Save: each builder has a mutation of its own, so that no builder is listed twice; a nil hook, which panics, is not modelled.
- SaveLaws.InvalidNeverInserts: hooks edit the mutation they got, in place and before they call the rest; a hook that passes on another mutation object, that edits after its last call, or that edits another builder's mutation is not modelled, here or in SaveLaws.InsertsOnlyChecked.
- SaveLaws.SaveLikeBulkOfOne: the single Save is modelled on values, not on the heap; a nil hook, an error there, is not modelled; a successful insert without a key, which sqlSave's type assertion would panic on, leaves the key 0.
- AccountRows.ReadBack: documents are assumed to survive encoding and decoding, and other values the database; M2M and O2M edges of createSpec, which are not columns, are not modelled.
- AssignLaws.RowShown: with repeated columns it is AssignLaws.CellAfterCell, cell after cell, that says what a row does.
- AccountRows.Record.AssignValues: a document that fails to decode half-way leaves the map as it was.
- AuditParser.RenderThenParse: keys without a colon or outer spaces that do not read as a comment, a header or an item where they stand on a line of their own, plain values without outer spaces or quotes around them, and no line breaks in keys or values.
- The queries of proxies, groups and users are leaves: their builders are held as values in a field, without a projection or edges of their own.
- Interceptors, paths (`Query...` steps), DISTINCT, transactions, SQL text, and failures of the database while reading.
- ORDER BY is abstract: a table is given in the order that each list of order terms imposes.
- In-place growth of Go slices: predicates, fields and order terms are sequences, so sharing of a backing array is not captured.
- Duplicate IDs in one result cannot occur here, since primary keys are unique.
- `FirstID`, `IDs`, `Exist`, `Count`, `Scan` and grouping, which go through scanning code that is not part of this model.
- One-line setters, upserts, ON CONFLICT, updates and deletes: forwarding, or the same templates again.
- The width of Go integers and floating-point rounding: no arithmetic is done on either.
- JSON parsing, file access, argument parsing and the wording of messages in the audit script; floating-point numbers in a report; the check that object keys in a report are distinct.
