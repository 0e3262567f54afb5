# Vikasa infrastructure: a verified model

Vikasa compiles a per-DOT topology (clusters, districts, partitions, a central tier, a DMZ) into
NATS streams, cross-domain sources and DNS records, renders them, and issues the operator, account,
cabinet and consumer credentials that go with them. This project models the parts where correctness
hangs on an argument across several functions or several runs, and proves that argument.

| module | models | what is proved |
|---|---|---|
| `Naming` | `internal/naming` | the string test for "this filter lies in that space" against inclusion of the sets of subjects matched |
| `Topology` | `internal/topology` | the validity rules and the flat partition index |
| `Accounts` | `internal/accounts`, `aggregateDMZConsumers` | who may read what through the DMZ; every import is exported |
| `Lanes` | the same, in terms of subjects | what each account grants whom, and the way of the data from district to DMZ |
| `Plan` | `internal/plan/plan.go` | when a topology has a plan, what is in it, when its names are distinct |
| `Provision` | the same, read off the result | where streams are and what they keep, what leaves through the DMZ, DNS records and legal names |
| `PlanChoice` | the same, over map orders | every buildable topology has a plan; exactly when it has only one; topologies with two plans, with clashing names, and with imports out of order |
| `Diff` | `internal/plan/diff.go` | the delta is a patch, and the same one for every map order |
| `Rebalance` | `internal/render/rebalance.go` | exactly which changes the runbook keeps silent about |
| `Cabinets`, `Fleet` | `internal/plan/cabinets.go`, `internal/fleet` | generator and issuer accept the same inventories and give a cabinet the same scope |
| `Churn` | the comparison in `cmd/gen` | exactly when cabinets attached to both plans show in their delta |
| `Bundle`, `IssuanceSpec`, `Issuance` | `internal/issuance` | the credential bundle over all histories of runs, each of which may stop between any two writes |
| `Runs` | what follows for whole runs and histories of them | exactly when a run completes, exactly which credentials it leaves revoked, what stays unchanged |
| `Credentials` | what is issued, as a server reads it | which credentials are accepted, and what exactly their holders may publish and subscribe |
| `RetiredLog` | the log file behind it | append then load, bad lines, and that a log of records is a fair picture of the text |
| `Engine` | Helm's template engine | quoted strings and value references, read without any knowledge of the generator |
| `Helm` | `internal/render/helm.go` | the escaping rewrite against that engine, with the exact condition |
| `IdAlloc` | `internal/render/diagram.go` | the id allocator: injective, stable, and it terminates |
| `WriteTree` | `internal/render/writetree.go` | the manifest-based pruner over any sequence of runs |

`Basics`, `Text` and `Sorting` hold result types, the few functions of Go's `strings` package in use,
and `sort.Slice`.

## How the code is modelled

* Code that changes things step by step is imperative here too: `Issuance.Issuer`, `Cabinets.PlanObject`,
  `Rebalance.RebalanceData`, `IdAlloc.Allocator` and `WriteTree.OutputDir` are classes; loops stay loops.
* A Go map is walked in an arbitrary order (`:|` on the set of keys left), so a contract that names one
  result says that the order leaves no trace. `sort.Slice` is used only through "sorted permutation",
  since it is not stable.
* The bundle: a key pair is a number, a JWT a record with its issuer, a directory of files a map. Keys
  are fresh; one file write or one line append is atomic; a run makes `writesLeft` writes and then stops,
  between any two writes. A file is missing, unreadable, malformed or good; the code treats an unreadable
  JWT as an error and a malformed one as declaring nothing.
* The clock is the parameter `now`, in seconds, as JWTs and the log have it. A
  revocation carries the time on record, of two for one key the later; it covers what was issued no later
  than that. The JSON codec of the log is the parameter `Codec`.
* Contracts of `Issuer` start from any files that a history of runs leaves, each run cut anywhere. Files
  edited by hand in between need not be such files: a signing-key seed deleted under a JWT that still
  declares the key, for one, is accepted by the code and is outside the invariant.

## Where the code does less than its documentation says

* **Helm escaping.** The rewrite does not undo itself on every manifest without stray braces: `}}O}}` in its
  text is enough, because the `O` between the NULs of two close placeholders is taken for an open
  placeholder (`Helm.HelmBreaksOnLiteral`). A literal that spells a sentinel name between two marks does the
  same, and a lone `{` before a mark merges with it. `Helm.HelmRoundTrip` states the exact condition.
* **Rebalance runbook.** Central rows are dropped whenever something moves, on the ground that the source
  changes are told elsewhere. A change of `central.replicas` is not a source change and vanishes
  (`Rebalance.ReplicaChangeIsLost`). So does a name that turns from a regional stream into a shard in
  place; `Rebalance.CoveredExactly` and `Rebalance.NothingLostExactly` say when nothing is lost.
* **Names across tiers.** The collision guard covers regional streams, and with them the shards, but not
  one against the other: partition `a-b` of a district called `central` and partition `b` of district `a`
  pass every check and collide (`PlanChoice.CentralDistrictClashes`), and `Diff`, which indexes by name,
  then overlooks one of the two (`Diff.IndexSeesAll`). `Plan.NamesDifferExactly` has the exact condition.
* **Cabinets in a comparison.** The generator attaches one inventory to the old and the new plan, so that
  the diff shows placement and not cabinets. A stream name does not show where the district ends and the
  partition begins: partition `b-c` of `a` and partition `c` of `a-b` have one. If a name passes from the one
  to the other, a cabinet on either is a change in place where there is none (`Churn.CabinetShows`).
  `Churn.CabinetsShowExactly` has the exact condition; all else in the delta is as without cabinets.
* **Nested district spaces.** The comment in `buildDMZ` says subject spaces are disjoint; nothing checks
  it. With one district's space inside another's a valid topology can have two plans, and Go's map order
  picks one (`PlanChoice.NestedHasTwoPlans`). A buildable topology has one plan exactly when no share of
  its DMZ can be matched to two districts of which one has a partition (`PlanChoice.PlanIsUniqueExactly`).
* **Wildcards below a space.** For a space with a `*` before its `.>`, `UnderPrefix` refuses filters that
  the space does contain (`Naming.WildcardSpaceRefusesIncluded`); it never accepts one it does not.
* **A cut CA.** A run stopped between the two CA writes leaves half a CA (`Bundle.CutCA`), which every later
  run with an inventory refuses. It is the only thing a history of runs can leave behind that keeps a later
  run from completing (`Runs.OnlyHalfCAStops`, with `Issuance.Issuer.IssueWithRotation`).
* **CENTRAL's imports.** They are documented as sorted by account and subject, and are sorted by district
  id. The two orders agree exactly when no two ids first differ where one of them has a dash
  (`Accounts.CentralImportsOrdered`); `a-b` and `ab` do (`PlanChoice.DashedDistricts`).

A rotation cut off after a retired key is logged and before the new one is written leaves a live key on
record, and a later run keeps that key. It issues the credential afresh, so the record does not cover it
unless both fall in the same second (`Bundle.CutRotation`). `Runs.RevokedExactly` says exactly which
credentials of a completed run are revoked, and `Runs.NeverRevoked` that none is when the clock moves
between runs, whatever runs were cut. What is revoked stays so at every cut (`Bundle.RevokedAtEveryCut`).

## Model

| member | source | states |
|---|---|---|
| Naming.ValidSubjectRoundTrip | internal/naming/naming.go:31-57 | the scan accepts the joined form of a token list exactly when every token is a literal, a `*`, or a final `>` |
| Naming.ValidSubjectIsInert | internal/naming/naming.go:23-30 | no quote, brace, blank or control character gets past the check |
| Naming.UnderPrefixTokens | internal/naming/naming.go:16-21 | the string prefix test is a proper token-prefix test, for any strings |
| Naming.InclusionIsCover | internal/naming/naming.go:8-15 | a pattern's subjects all lie in `base.>` exactly when the base covers it token by token |
| Naming.UnderPrefixExact | internal/naming/naming.go:16-21 | the test is inclusion, minus the filters that need a `*` of the space to cover something narrower |
| Naming.UnderPrefixIsInclusion | internal/naming/naming.go:16-21 | for a space without `*` the test is exactly inclusion of the matched subjects |
| Naming.WildcardSpaceRefusesIncluded | internal/naming/naming.go:16-21 | for any space with a `*` some included filter is refused |
| Naming.SharedSubjectNests | internal/plan/plan.go:338-350 | two spaces that both hold a subject string are equal or one lies in the other |
| Naming.SanitizeInjective | internal/naming/naming.go:63-68 | on tokens, sanitizing loses nothing |
| Naming.OperatorsDiffer | internal/naming/naming.go:76-79 | different dots have operators of different names |
| Naming.SanitizeCollides | internal/naming/naming.go:59-68 | on partition ids it does: `a/b` and `a-b` are both legal and get one name |
| Topology.PartitionIndex | internal/topology/topology.go:271-286 | an index exists exactly when no partition id is used twice, and then it is the ownership relation |
| Accounts.Build | internal/accounts/accounts.go:56-145 | the model: CENTRAL, one account per district, SYSTEM and DMZ, with their exports, imports and users |
| Accounts.NamesAreDistinct | internal/accounts/accounts.go:56-145 | no two accounts of a validated topology share a name |
| Accounts.ImportsAreExported | internal/accounts/accounts.go:67-131 | whatever an account imports, the account it names exports |
| Accounts.DistrictHasAccount | internal/accounts/accounts.go:79-92 | every district has its account |
| Lanes.DistrictGrants | internal/accounts/accounts.go:79-92 | a district's users may publish and subscribe exactly the subjects of its space, which its account exports |
| Lanes.FiltersAreGranted | internal/naming/naming.go:155-161 | whatever a filter accepted for a cabinet matches, its district's account grants |
| Lanes.SpaceIsAnchored | internal/naming/naming.go:129-131 | every subject of a district's space starts with vikasa and the dot |
| Lanes.DefaultSpacesApart | internal/naming/naming.go:114-127 | districts without a declared prefix share no subject |
| Lanes.FixedAccounts | internal/accounts/accounts.go:67-98 | CENTRAL and SYSTEM grant no one any subject |
| Lanes.DataPath | internal/accounts/accounts.go:67-131 | CENTRAL imports exactly each district's space from it, and exports exactly what is shared |
| Lanes.DmzLane | internal/accounts/accounts.go:100-131 | the DMZ imports exactly what is shared, exports nothing, and no user of it may publish |
| Accounts.CentralImportsOrdered | internal/accounts/accounts.go:67-76 | CENTRAL's imports are in order of account and subject exactly when no two district ids first differ where one has a dash |
| Accounts.DmzUsersAreShares | internal/accounts/accounts.go:100-131 | the users of the DMZ account are one template per share, in some order |
| Accounts.AggregateDMZConsumers | internal/issuance/issuance.go:903-944 | one consumer per label, sorted, with the sorted union of what its templates allow and deny |
| Accounts.ConsumerScope | internal/issuance/issuance.go:903-944 | a consumer's subscribe scope is exactly the public subjects of its own shares, and it may publish nothing |
| Accounts.ScopeConfined | internal/topology/topology.go:403-423 | validated, each of them lies in the consumer's own share subtree or in the peer space |
| Accounts.SharesDisjoint | internal/topology/topology.go:403-415 | share-space subjects of two different consumers match disjoint sets of subjects |
| Accounts.PeerMissesShares | internal/topology/topology.go:403-423 | a peer-space grant reaches no consumer's share subtree, even for a DOT named peer |
| Accounts.DefaultShareIsValid | internal/topology/topology.go:80-84 | the default public subject passes the share check |
| Bundle.StepInv | internal/issuance/issuance.go:206-241 | one write made under its guard keeps the invariant of the bundle |
| Bundle.Safety | internal/issuance/issuance.go:357-375 | at every cut of every history, each key ever shown in a creds file or JWT is still in use there or on record |
| Bundle.MintedGrows | internal/issuance/issuance.go:581-614 | a key never changes the seed file it was minted for |
| Bundle.CutRotation | internal/issuance/issuance.go:352-375 | a rotation cut between record and new key, and the run after it: the new credential is revoked exactly if the clock has not moved past the record |
| Bundle.CutCA | internal/pki/pki.go:126-200 | a run over a model without accounts, cut between the two CA writes, leaves a certificate without its key |
| Bundle.WritesDoNoDamage | internal/issuance/issuance.go:703-720 | along any history a file that is broken later was broken before, in the same way |
| Bundle.NothingBroken | internal/issuance/issuance.go:101-188 | nothing that runs have made of an empty bundle is broken, wherever they were cut |
| Bundle.RevokedAtEveryCut | internal/issuance/issuance.go:515-551 | between any two points of a history, in the middle of a run or not: what an account's JWT revokes it goes on revoking, as of a time no earlier unless one on record does not parse |
| Bundle.RevokedForever | internal/issuance/issuance.go:541-549 | from an empty bundle, where all times parse, as of a time no earlier |
| Issuance.Issuer.Commit | internal/issuance/issuance.go:703-720 | one atomic write or none, and the history stays disciplined |
| Issuance.Issuer.EnsureKeypair | internal/issuance/issuance.go:581-614 | an existing seed is reused unless forced, anything else is a fresh key, no other seed changes |
| Issuance.Issuer.CaptureRetiredOperatorSK | internal/issuance/issuance.go:769-792 | afterwards every key operator.jwt declares is on record with the time, so the signing key may be replaced; an unreadable operator.jwt is an error |
| Issuance.Issuer.EnsureOperator | internal/issuance/issuance.go:206-243 | operator.jwt lists exactly the current signing key and is signed by the root |
| Issuance.Issuer.CaptureRetiredAccountSK | internal/issuance/issuance.go:812-834 | the same for an account's JWT, which is rewritten only at the end of a run |
| Issuance.Issuer.EnsureAccounts | internal/issuance/issuance.go:248-294 | every account has root and signing key; named signing keys are new, all other keys kept |
| Issuance.Issuer.RetireCabinet | internal/issuance/issuance.go:656-700 | one record, if any, names the cabinet, its district and account, the user key the creds file names, the serial of the certificate and the time, before either is replaced |
| Issuance.Issuer.MintUser | internal/issuance/issuance.go:381-418 | the creds are signed by the account's signing key, name its root and carry the cabinet's filter |
| Issuance.Issuer.EnsureLeafKey | internal/issuance/issuance.go:620-639 | an existing leaf key is reused unless forced |
| Issuance.Issuer.MintCabinet | internal/issuance/issuance.go:381-436 | key, creds, leaf key and certificate of one cabinet, and nothing of any other; without a rotation user key and leaf key stay, with one both are new; the serial always is |
| Issuance.Issuer.RetireAndMint | internal/issuance/issuance.go:357-375 | with the record first: the old user key and serial are on record, and the key in use is on record exactly if it was kept and was already |
| Issuance.Issuer.LoadOrCreateCA | internal/pki/pki.go:126-200 | a whole CA is kept, half a CA is an error, none is minted; certificate and key are of one pair |
| Issuance.Issuer.MintCabinets | internal/issuance/issuance.go:298-379 | the boundary checks pass and every cabinet is complete, or the error names what was wrong; a CA that is there and keys not named stay |
| Issuance.Issuer.MintDMZConsumers | internal/issuance/issuance.go:442-511 | every consumer's credential is signed by the DMZ account with its aggregated scope |
| Issuance.Issuer.FoldRevocations | internal/issuance/issuance.go:541-548 | the loop over the log gives each retired key of the account the latest time on record |
| Issuance.Issuer.WriteResolverBundle | internal/issuance/issuance.go:515-561 | every account JWT lists its signing key, its imports' roots and all retired user keys of the account with their times |
| Issuance.Issuer.IssueWithRotation | internal/issuance/issuance.go:101-188 | with enough writes (the bound is stated) a run completes exactly when the inputs are acceptable and the files it reads are in order; completed, the trust chain stands, named keys are new and each cabinet credential is revoked exactly if its kept key was on record; completed or not, only named or missing keys change, seeds, leaf keys and CA alike, and what a rotation replaced is on record, user key and serial |
| Issuance.Issuer.RunHistory | internal/issuance/issuance.go:101-188 | over any sequence of runs that may each stop anywhere, nothing shown is forgotten and nothing revoked is forgiven at any point, unnamed seeds and leaf keys stay, and so does a CA |
| Issuance.Issuer.RunCompleted | internal/issuance/issuance.go:173-186 | over completed runs no live key gets on record, and each retired key is revoked, as of its time, in the account JWTs of every one of them |
| Issuance.Issuer.Reissue | internal/issuance/issuance.go:581-614 | running again after a completed run without rotation, any number of times, each at its own time and cut or not, leaves every seed, leaf key and the CA identical |
| IssuanceSpec.CheckIsOk | internal/issuance/issuance.go:330-349 | the checks on one cabinet, in their order, come to the boundary rule |
| IssuanceSpec.StaysUnrevoked | internal/issuance/issuance.go:173-186 | if no live key was on record, none is after any set of cabinets has been minted |
| IssuanceSpec.ModelIsSound | internal/accounts/accounts.go:56-145 | the model of a validated topology meets issuance's needs: distinct names, no dangling import |
| IssuanceSpec.OnlyTheDiskFails | internal/issuance/issuance.go:101-188 | with validated inputs a run can fail only on what is on disk or on stopping |
| IssuanceSpec.ScopeIsMinted | internal/issuance/issuance.go:101-188 | after a completed run every seed file it has to do with is there |
| Runs.FailureHasGround | internal/issuance/issuance.go:101-188 | with writes to spare, a run that failed met a bad input or a bad file at its start |
| Runs.CompletionHasGround | internal/issuance/issuance.go:101-188 | and a run that completed met neither |
| Runs.ModelIsFit | internal/accounts/accounts.go:56-145 | the model of a validated topology has no consumer or import a run would refuse |
| Runs.OnlyHalfCAStops | internal/pki/pki.go:126-200 | of all that runs from an empty bundle can leave, only half a CA makes the next run fail, and only with an inventory |
| Runs.ReissueChangesNothing | internal/issuance/issuance.go:581-639 | with everything there and nothing named, whatever a run keeps is every key file |
| Runs.RevokedExactly | internal/issuance/issuance.go:541-549 | a credential of a completed run is revoked exactly if its key was kept and on record with a time not yet over |
| Runs.NeverRevoked | internal/issuance/issuance.go:541-549 | over any history, cut runs included, with a clock that moves between runs: no completed run leaves an inventory credential revoked |
| Runs.RetiredStaysRevoked | internal/issuance/issuance.go:515-551 | whatever is on record is revoked, as of its time, once a run has completed |
| Runs.RevokedForGood | internal/issuance/issuance.go:836-869 | a key on record when some run begins is revoked by every later run that completes, whatever came between |
| Credentials.CabinetCredential | internal/issuance/issuance.go:381-418 | a cabinet's credential passes the server's chain check, for ninety days, and allows exactly the subjects of its filter, all in the district's space |
| Credentials.CabinetCertificate | internal/issuance/issuance.go:419-436 | its certificate is over its own leaf key, in its name, by the CA on disk |
| Credentials.ConsumerCredential | internal/issuance/issuance.go:467-511 | a consumer's credential passes the chain check, publishes nothing and subscribes exactly what shares with its name make public |
| Credentials.JwtImportsReach | internal/issuance/issuance.go:522-540 | what an account JWT imports, the JWT of the account key it names exports |
| Credentials.JwtCarries | internal/issuance/issuance.go:522-540 | every import of the model is in the JWT, and every account but SYSTEM has JetStream |
| Credentials.SafeNameStays | internal/issuance/issuance.go:454-457 | the files of a consumer whose name passes stay in their directory |
| RetiredLog.LoadRevocations | internal/issuance/issuance.go:841-869 | the records of the text, grouped by account, in file order |
| RetiredLog.AppendThenLoad | internal/issuance/issuance.go:703-720 | on an empty or newline-terminated log, append then load gives the earlier records and the new one |
| RetiredLog.AppendedEntry | internal/issuance/issuance.go:841-869 | after an append the account's list is the earlier one and the new entry, and every other list is as it was |
| RetiredLog.BadLineIsSkipped | internal/issuance/issuance.go:836-840 | a line that does not parse takes nothing else with it |
| RetiredLog.BlanksAreTolerated | internal/issuance/issuance.go:852-856 | blanks around a record do not matter, and a blank line is no record |
| RetiredLog.LogTextLoads | internal/issuance/issuance.go:703-720 | any number of appends, read back, are the records appended |
| RetiredLog.LoadedIsRecorded | internal/issuance/issuance.go:841-869 | what is loaded for an account, keys and times, is what the model's log of records holds for it |
| RetiredLog.SoundCodecExists | internal/issuance/issuance.go:703-720 | there is a codec as the model assumes it: one line a record, and back |
| Plan.Build | internal/plan/plan.go:101-204 | succeeds exactly on buildable topologies, with the plan, and every error names a real defect |
| Plan.CollectParts | internal/plan/plan.go:134-171 | the partitions in strict stream-name order, or two that collide |
| Plan.BuildRegional | internal/plan/plan.go:217-281 | streams, sources and sorted distinct DNS records, one each per partition |
| Plan.BuildCentralShards | internal/plan/plan.go:289-319 | one shard per partition in the same order, and the shards of each district |
| Plan.BuildDMZ | internal/plan/plan.go:325-385 | the egress stream with each share fanned over the shards of a district it draws from |
| Plan.AlreadySorted | internal/plan/plan.go:196-204 | the last sort changes nothing |
| Plan.WavesInOrder | internal/plan/plan.go:44-54 | the streams come in strict (wave, name) order |
| Plan.EveryPartitionOnce | internal/plan/plan.go:282-319 | a partition has one regional stream and one shard drawing from it, in its JetStream domain |
| Plan.NothingElse | internal/plan/plan.go:101-204 | every stream is a partition's, a partition's shard, or the DMZ's |
| Plan.AtMostOneDistrict | internal/plan/plan.go:338-350 | no conceivable share can match two districts exactly when no district's space lies in another's |
| Plan.SharesFanOut | internal/plan/plan.go:350-371 | with the district each share was matched to: each gives one source per shard of it, with its `from` as transform source and its `as` as destination, and alike shares give as many |
| Plan.OneDistrictFansOut | internal/plan/plan.go:350-371 | a share that only one district can match gives one source for each of its shards, in every plan |
| Plan.OnlyShares | internal/plan/plan.go:350-371 | and there is no other source |
| Plan.SourcesResolve | internal/plan/plan.go:282-288 | every source names a stream of the plan one wave up, in its own JetStream domain |
| Plan.StreamsAreBounded | internal/plan/plan.go:31-42 | storage is bounded and positive, replicas in range, and only the DMZ stream dedupes and echoes |
| Provision.StreamPlacement | internal/plan/plan.go:205-319 | every stream is on the cluster of its partition, of central or of the DMZ, in that cluster's JetStream domain, with the replicas set or three |
| Provision.ShardDrawsOnPartition | internal/plan/plan.go:282-319 | a shard has one source: its partition's stream, in the domain where that is, unfiltered and unchanged |
| Provision.StreamRetention | internal/plan/plan.go:31-42 | how long and how much each tier keeps; the dedupe window fits the retention, as NATS demands; only the DMZ republishes |
| Provision.StreamNamesAreLegal | internal/naming/naming.go:81-103 | stream names are of capitals, digits and underscores |
| Provision.EgressIsConfined | internal/plan/plan.go:350-371 | deny by default: each DMZ source takes what one share names, from the space of the district whose shard it reads, to that share's public subject in the consumer's or a peer's space |
| Provision.RecordsAreLeaves | internal/plan/plan.go:250-270 | the DNS records are exactly the partitions', each to the leaf endpoint of its partition's cluster |
| Provision.LeafNameIsLegal | internal/naming/naming.go:140-147 | a leaf name has four labels of letters, digits and hyphens, and is a host name exactly if neither partition id nor dot ends in a hyphen |
| Plan.NamesDifferExactly | internal/plan/plan.go:163-171 | all stream names differ exactly when no regional name spells a shard's |
| Plan.ClashNeedsCentral | internal/naming/naming.go:82-102 | that takes a district called central or central-something |
| Plan.NamesDifferUnlessCentral | internal/plan/plan.go:163-171 | without such a district all names differ |
| PlanChoice.BuildableHasPlan | internal/plan/plan.go:101-204 | every buildable topology has a plan |
| PlanChoice.PlanIsUniqueExactly | internal/plan/plan.go:99-101 | it has only one, whatever order maps are walked in, exactly when no share can be matched to two districts of which one has a partition |
| PlanChoice.ApartIsOnePlan | internal/plan/plan.go:338-350 | disjoint subject spaces, as the comment has them, are enough |
| PlanChoice.NestedHasTwoPlans | internal/plan/plan.go:338-350 | a valid, buildable topology with two plans |
| PlanChoice.CentralDistrictClashes | internal/naming/naming.go:82-102 | a valid, buildable topology whose plan has two streams of one name |
| PlanChoice.DashedDistricts | internal/accounts/accounts.go:27 | districts `a-b` and `ab`, valid and buildable, with the imports out of the documented order |
| Diff.Diff | internal/plan/diff.go:35-88 | each list holds exactly the changes of its kind, strictly sorted |
| Diff.UnchangedIsEqual | internal/plan/diff.go:92-123 | the comparison leaves out no field |
| Diff.DeltaIsUnique | internal/plan/diff.go:77-84 | two plans have one delta |
| Diff.PatchIsNew | internal/plan/diff.go:35-88 | the delta applied to the old streams and records gives the new ones |
| Diff.NoChangeIsEqual | internal/plan/diff.go:126-132 | the count is zero exactly when the two agree |
| Diff.PatchedMembers | internal/plan/diff.go:134-148 | with distinct names, the patched old plan has exactly the new plan's streams |
| Diff.NoChangeIsSamePlan | internal/plan/diff.go:126-132 | between plans with distinct names, cabinets attached or not, a zero count means the same lists |
| Diff.IndexSeesAll | internal/plan/diff.go:134-140 | Diff sees every stream of a plan, cabinets attached or not, exactly when no regional name is also a shard's |
| Rebalance.BuildRebalanceData | internal/render/rebalance.go:63-101 | the rows, list by list |
| Rebalance.Runbook | internal/render/rebalance.go:63-101 | the rows against the two plans: which name has a row in which list, with old and new cluster, domain and target as the plans have them, in name order |
| Rebalance.ShownAre | internal/render/rebalance.go:82-90 | an in-place change has a row unless it is central and something moves |
| Rebalance.CoveredExactly | internal/render/rebalance.go:82-90 | with cabinets attached or not, a suppressed row is told by a move exactly when a shard stays a shard and keeps its replicas |
| Rebalance.NothingLostExactly | internal/render/rebalance.go:82-90 | with cabinets attached or not, the runbook loses no change exactly when nothing moves or all central rows are of that kind |
| Rebalance.SteadyTopologies | internal/render/rebalance.go:82-90 | same replicas and no district named after central are enough |
| Rebalance.ReplicaChangeIsLost | internal/render/rebalance.go:82-90 | moving a partition and changing central's replicas loses the second |
| Cabinets.PlanObject.AttachCabinets | internal/plan/cabinets.go:16-75 | succeeds exactly when every cabinet has a place; each touched stream's sources are sorted; a failure only adds sources |
| Cabinets.PlanObject.MaxPartitionFanIn | internal/plan/cabinets.go:84-94 | the maximum over regional streams, the first name among equals, none if it is zero |
| Cabinets.ToolsAgree | internal/issuance/issuance.go:338-345 | issuance accepts an inventory exactly when the generator does and every filter is given |
| Cabinets.AttachIsUnique | internal/plan/cabinets.go:68-73 | neither the sort nor the walk over the touched streams leaves a trace |
| Cabinets.OneHome | internal/plan/cabinets.go:43-66 | each cabinet is a source of one regional stream, its partition's, once, from its buffer stream, with its filter and no transform |
| Cabinets.SameScope | internal/issuance/issuance.go:394-397 | what that source pulls is what the cabinet's credential allows |
| Churn.PartSources | internal/plan/cabinets.go:43-73 | the stream of a partition, as Diff indexes it, draws on the partition's cabinets, strictly ordered, and on nothing else |
| Churn.CabinetsShowExactly | cmd/gen/main.go:92-93 | with one inventory attached to both plans the same streams and records come, go and move as without; the same change in place exactly if no stream that stays otherwise the same passes between partitions of which one has a cabinet |
| Churn.CabinetShows | cmd/gen/main.go:186-190 | two valid, buildable topologies and one cabinet that does show |
| Helm.ChartTemplates | internal/render/helm.go:66-102 | every manifest but kustomization.yaml is rewritten, under templates/ |
| Helm.ActionReads | internal/render/helm.go:46-102 | the engine reads the action written for a mark as its text or as the value of its key in values.yaml |
| Engine.StringAction | internal/render/helm.go:46-54 | a quoted string prints itself |
| Engine.ValueAction | internal/render/helm.go:97-100 | a reference prints the value of its key |
| Engine.EvalKeeps | internal/render/helm.go:46-54 | no control character of a template is lost |
| Helm.ReplaceIsGlue | internal/render/helm.go:46-54 | replacing a sentinel glues three NUL-separated fields into one, leftmost first |
| Helm.HelmRoundTrip | internal/render/helm.go:46-102 | Helm, with values.yaml as written, gives back the manifest with the real values exactly when no text is stolen and no lone brace precedes a mark; then it looks up just the knobs' keys, in order |
| Helm.HelmBreaksOnLiteral | internal/render/helm.go:46-54 | a manifest that holds `}}O}}` anywhere, not right after a brace, does not survive |
| IdAlloc.FreeId | internal/render/diagram.go:56-60 | the base if it is free, else base_n for the least n from 2 on that is, found within one more try than there are ids |
| IdAlloc.CandidatesDiffer | internal/render/diagram.go:58-60 | the candidates of one base are pairwise different |
| IdAlloc.SanitizedAt | internal/render/diagram.go:22-35 | safe characters stay where they are, each other one becomes an underscore |
| IdAlloc.DecimalReads | internal/render/diagram.go:58-60 | the suffix is the number in decimal, without leading zeros |
| IdAlloc.Allocator.Id | internal/render/diagram.go:51-64 | a known pair gets its id back, a new one a fresh id, and nothing else changes |
| IdAlloc.AllocateAll | internal/render/diagram.go:37-50 | over any requests, equal pairs and only those share an id, and all ids are Mermaid-safe |
| WriteTree.OutputDir.WriteTree | internal/render/writetree.go:38-65 | the directory after a run: stale listed paths gone, the new files, a manifest if pruning |
| WriteTree.OutputDir.PruneStale | internal/render/writetree.go:106-121 | what the manifest lists and the run does not write is removed |
| WriteTree.OutputDir.RunAll | internal/render/writetree.go:38-65 | any sequence of runs is a history in the sense below |
| WriteTree.ManifestRoundTrip | internal/render/writetree.go:97-99 | clean names survive join, trim and split |
| WriteTree.Untouched | internal/render/writetree.go:101-121 | a path no run writes goes exactly if it was listed at the start and some run prunes |
| WriteTree.LastWriterDecides | internal/render/writetree.go:27-37 | with pruning and plain runs mixed: the last writer fixes a path's content, and exactly when it is removed |
| WriteTree.PruningHistory | internal/render/writetree.go:27-37 | when every run prunes, the paths ever written hold exactly the last run's files, all others are untouched |
| WriteTree.Output.MergeInto | internal/render/writetree.go:15-23 | succeeds exactly when no path is produced twice |

## Left out

- Cryptography and encodings: nkeys, JWT signing and parsing, x509, PEM, JSON, YAML; expiry is only written, never checked.
- File permissions, directory creation, temporary files, seed wiping, and torn writes or half-appended log lines.
- NATS's own revocation rules beyond one user key (revoking all users of an account), and when a server picks up a new JWT.
- A read error of the retired-keys log itself, which ends a run before any account JWT is written.
- The clock within a run: the code reads it again for every credential and record; here a run has one time.
- Run summaries (`Result`, minted and rotated lists) and the command-line tools.
- `UnmarshalJSON`: duplicate and missing ids in the wire form are settled by one loop each; a topology is taken as indexed.
- Nil receivers and nil map entries.
- `load.go`'s placement checks; `Plan.Build` rejects an unknown cluster itself.
- Paths are taken as given: no `filepath.Join` cleaning, no file standing where a directory is needed.
- Partition and account ids as file names: an id with `/` in it is one name here.
- `strings.ToUpper` and `ToLower` beyond ASCII; validated ids are ASCII.
- Manifest names with blanks at their ends: which of them a trim would damage depends on where they sort.
- Sources that are nil and sources that are empty are one value.
- The text of templates, runbooks, diagrams and errors; for Helm, a manifest is literal text cut by knobs, and actions other than quoted strings and value references are errors.
- `Chart.yaml`, and the text of `values.yaml`, which is taken as the map of its four keys.
- `internal/credhealth`, NATS server behaviour, and plans not yet in the code.
