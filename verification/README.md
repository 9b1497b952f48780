# Paradigm Terra settlement kernel: model and proofs

This project models the deterministic, event-sourced settlement kernel of Paradigm Terra and proves what the kernel is
for: money is conserved, the reducer accepts whatever the validator emits, staged and atomic validation agree, a run
can be replayed and recovered, no CAL finalizes twice, the state root binds the state, and the arithmetic, canonical
JSON and expression language underneath are exact.

How it is laid out, from the bottom up:

- `Limbs`, `U256`, `I256`, `Decimal`: limb arithmetic in loops, each method proved against mathematical integers.
- `JsonTree`, `Text`, `JcsText`, `JcsRoundTrip`, `Jcs`: the JSON tree with path reads and writes, and canonical JSON.
  The parser is a class that advances `pos`; what it reads is given by functions of position.
- `Merkle`: the level loop, the state root, and binding up to an explicit hash collision.
- `Taxonomy`, `DslAst`, `DslParse`, `DslMeasure`, `DslEval`, `DslScope`: the expression language, its budgets and its
  evaluator.
- `Owners`, `Events`, `Deltas`, `Reducer`: the reducer on the state tree, as the Rust port has it; `TsReducer` is the
  TypeScript port, whose integers are unbounded, and `Ports` names the two.
- `Ledgers`, `LedgerStep`, `Sums`, `Conservation`, `Lifecycle`, `Runs`, `OwnerRuns`, `OwnerBound`: a typed ledger that
  the reducer refines, and what holds after every event and over every run.
- `Parity`, `Plain`: when the two ports of the reducer agree, exactly for an effect and a tick, then over logs; and a
  condition on genesis and effects that guarantees it beforehand.
- `Gas`, `Quorum`, `Validator`: prices, gas units, bills, the owner quorum and the two validator phases.
- `Acceptance`, `Staging`, `LateFees`: validator and reducer together; a late resume, at the same flat fee and at
  another.
- `Gates`, `Emergency`, `Claims`: who pays, what it takes to finalize, and what the injected emergency invariants say
  about the claimed and about the live state. `Samples` holds CALs that pass every gate, for the concrete runs.
- `Migration`: the v1 to v2 registry upgrade.
- `Node`, `NodeLog`, `Replay`, `LogClock`, `ReplayExact`, `NodeStaging`, `NodeSafety`, `NodeEffects`: tick blocks,
  runs, replay, safety over whole programs, and what a program does to the state. The node takes the reducer as a
  parameter and the validator as it is in Rust.
- `NodePorts`, `EitherPort`: the node over either reducer.
- `NodeResume`, `NodeFees`, `NodeClaims`: late resumes over whole programs, how the fee gets to change through the
  node, and a submission that lies about the state it leaves.

Choices that hold throughout:

- An object is a map from names to values; nothing observes the order in which members were inserted. Equality of maps
  in the expression language walks the keys in canonical order, where the code walks them in insertion order.
- Text and byte strings are sequences of symbols. Strings are taken to be NFC-normal and assigned; a leading
  byte-order mark is still refused where the code refuses it. `Gas.Utf8Length` gives the byte count that state rent
  needs.
- In the Rust reducer, the gas layer and the validator an amount is read as uint256, and anything else as zero or its
  default. A nonce in the state is read as an unbounded natural, and sums and products of prices and gas are
  unbounded; the Rust port panics outside 256 bits.
- Events are typed. An absent optional amount is zero, a missing or malformed one is `None`, and fields that the
  reducer never reads travel as `notes`. `Unreadable` stands for an event that cannot be read at all.
- Signature verdicts come with the execution trace. Hash functions are parameters.
- Two conditions on staged effects recur. *Safe* (`LedgerStep.SafeDelta`): the path neither contains nor lies inside
  `cal`, `ptra.balances` or `treasury.collected_fees_window`. *Commits* (`Acceptance.Commits`): applied in order, all
  effects of the CAL succeed.
- `Represents(s, l)` says that the tree `s` holds, under those protected paths, what the ledger `l` says; `Sound` says
  that an in-flight CAL has no escrow before VALIDATED, nothing staged before EXECUTED, and shares its agent with no
  other.
- Theorems about the node ask for the Rust reducer (`node.port == Rust`) unless they say otherwise. *Plain* (`Plain`,
  `NodePorts.PlainProgram`): no null in the state and in what effects set, and no integer there or added and
  subtracted beyond uint256. On plain programs the two reducers agree, and `EitherPort` carries theorems over.
- Many contracts and some bodies start with `hide *`: reading them as well-formed needs no definition, which keeps
  verification short. It does not reach into the proofs.

Where code and documentation disagree the model follows the code: the header of `canonical-rs/src/merkle.rs` says that
leaf and node hashes use distinct tags, but the state root uses `STATE_ROOT_V1` for both.

Six properties turned out narrower or wider than one might expect; each has its exact condition:

- Resuming a CAL after the flat fee has changed can be refused. Every resume of a waiting CAL is accepted exactly when
  its gas budget at the present fee is within the escrow it paid: always with a gas limit of its own, otherwise as
  long as the fee rose by one percent at most (`LateFees.EveryResumeCovered`; one given resume:
  `LateFees.ResumeExactly`). At the node that is a submission which stops the run
  (`NodeResume.ResumeRejectedExactly`), whatever program ran while the CAL waited; at the live tick all such
  submissions go through exactly when the budget without the least that a resume consumes is within the escrow
  (`NodeResume.LateSubmission`). Another agent can bring it about by an ordinary submission whose effect sets the fee
  (`NodeFees.FeeRaised`); `NodeFees.DoubledFeeRefused` is such a run from a concrete genesis.
- The owner-record check looks only at a `set` of exactly one owner field. `OwnerBound.DeltaKeepsExactly` says which
  effects keep the bound and `OwnerBound.KeepsBoundCases` spells it out for a complete record: a delete and that `set`
  always do, `add` and `sub` on a threshold do while it stays between one and the number of owners, a `set` of a
  record or above it does when each record inside is incomplete or well formed, and a write below an owner field never
  does. `OwnerRuns.AddGoesRound` is an accepted `add` that breaks it.
- The replay check passes exactly when every block of the run appended an event, up to a hash collision that the proof
  returns (`ReplayExact.VerifiesExactly`); `Replay.IdleBlockFails` is a sound run that fails it.
- The emergency invariants guard the states that the trace claims, which are never compared with the recorded effects.
  In bounded mode a CAL finalizes exactly when its own checks hold and the claims pass (`Claims.ClaimsDecide`); once
  it is accepted, the live state respects the guards exactly when committing its effects to the snapshot does,
  whatever was claimed (`Claims.LiveGuards`, after a resume `Claims.LiveGuardsResumed`). True claims make the two
  agree (`Claims.TruthfulGuards`, `Claims.BoundedModeKept`, `Claims.BoundedResumeKept`); without them any CAL that
  passes its checks can lower the live net asset value (`Claims.ClaimsCanLie`, through the node
  `NodeClaims.SubmissionLies`), and `NodeClaims.NavLost` is a run in which one does.
- The two ports of the reducer do not agree on every log. The TypeScript one adds and subtracts any integers and reads
  a null target as zero, leaves an empty object where it deletes through a null, compares any integers for the capture
  guard and the tick, and does not check its credits. They treat an effect alike exactly when it is even
  (`Parity.DeltasExactly`, for lists `Parity.CommitsExactly`) and a tick exactly when the current one is not negative
  and the guard is even (`Parity.TicksExactly`). With even money and the supply in range they take an event alike
  exactly when it is even (`Parity.EventsExactly`), and so an even log (`Parity.FoldPorts`);
  `Parity.NegativeAddParts`, `Parity.NegativeThresholdParts` and `Parity.NegativeTickParts` are safe inputs on which
  they part. A plain genesis and plain effects keep a whole program even (`Plain.PlainRun`, `NodePorts.RunPorts`).
- The long division of `dsl-rs/src/i256.rs` is right for every non-zero divisor, not only for those up to 2^255.

## Model

| member | source | states |
|---|---|---|
| JsonTree.GetSet | cal-reducer-rs/src/state.rs:77-94 | reading a path right after setting it gives the value set, whatever was on the way |
| JsonTree.SetAppend | cal-reducer-rs/src/state.rs:77-94 | setting below a path is setting the path to its old content with the inner place set |
| JsonTree.GetSetDisjoint | cal-reducer-rs/src/state.rs:62-94 | a set leaves every path alone that is neither a prefix nor an extension |
| JsonTree.GetDeleteDisjoint | cal-reducer-rs/src/state.rs:97-113 | so does a delete |
| DslEval.Walk | dsl-rs/src/evaluate.rs:102-111 | the segment loop finds exactly what the path read finds |
| Limbs.AddCarry | dsl-rs/src/i256.rs:36-45 | the four limbs hold the sum modulo 2^256 and the flag tells whether it wrapped |
| Limbs.SubBorrow | dsl-rs/src/i256.rs:48-62 | the same for the difference and the borrow |
| Limbs.Cmp | dsl-rs/src/i256.rs:25-33 | comparing limbs from the top orders the numbers |
| Limbs.WideMul | dsl-rs/src/i256.rs:65-77 | schoolbook multiplication gives the full 512-bit product |
| I256.GetBit | dsl-rs/src/i256.rs:79-81 | the bit is that of the binary expansion |
| I256.ShiftLeft | dsl-rs/src/i256.rs:83-91 | doubles whenever the double fits |
| I256.DivMod | dsl-rs/src/i256.rs:94-106 | for every non-zero divisor a = q b + r with r < b: the shift never loses a bit |
| I256.Make | dsl-rs/src/i256.rs:108-121 | a number exactly when it lies in int256, and never a negative zero |
| I256.AddRaw | dsl-rs/src/i256.rs:124-138 | the signed sum exactly, or None exactly when it is out of range |
| I256.Add | dsl-rs/src/i256.rs:180-182 | the sum exactly, or None exactly when it is out of range |
| I256.Sub | dsl-rs/src/i256.rs:184-187 | the difference exactly, or None exactly when it is out of range |
| I256.Mul | dsl-rs/src/i256.rs:189-195 | the product exactly, or None exactly when it is out of range |
| I256.Div | dsl-rs/src/i256.rs:199-202 | the quotient truncated toward zero, or None only for the minimum over -1 |
| I256.TruncDivMeaning | dsl-rs/src/i256.rs:197-202 | truncated division leaves a remainder below the divisor with the sign of the dividend |
| I256.EuclidMod | dsl-rs/src/i256.rs:204-215 | the remainder in [0, abs b); the sum inside always fits, so its `expect` never fires |
| I256.FromDecStr | dsl-rs/src/i256.rs:155-178 | reads decimals with an optional minus exactly when they are in range |
| U256.CheckedAdd | cal-gas-rs/src/u256.rs:96-109 | the sum exactly when it is below 2^256 |
| U256.CheckedSub | cal-reducer-rs/src/u256.rs:105-123 | the difference exactly when it is not negative |
| U256.SaturatingSub | cal-gas-rs/src/u256.rs:140-158 | the difference, or zero where it would be negative |
| U256.CheckedMul | cal-gas-rs/src/u256.rs:112-137 | the product exactly when it is below 2^256 |
| U256.PassCarry | cal-gas-rs/src/u256.rs:122-131 | the carry loop ends after one step: its exit past the eighth limb is unreachable |
| U256.FromDecStr | cal-gas-rs/src/u256.rs:45-72 | accepts exactly the non-empty digit strings below 2^256, with their value |
| U256.ToDecStr | cal-gas-rs/src/u256.rs:75-93 | writes the canonical decimal of the value |
| U256.RoundTrip | cal-gas-rs/src/u256.rs:45-93 | reading what was written gives the word back; writing what was read gives the text back exactly for canonical decimals below 2^256 |
| Decimal.TextUnique | cal-gas-rs/src/u256.rs:75-93 | a canonical decimal is the only canonical text of its number |
| Jcs.JcsParser.SkipWhitespace | canonical-rs/src/jcs.rs:340-348 | moves to the first symbol that is no space, and no further |
| Jcs.JcsParser.ParseString | canonical-rs/src/jcs.rs:205-273 | the string, escapes decoded, or the right error, and where it stops |
| Jcs.JcsParser.ParseNumber | canonical-rs/src/jcs.rs:275-310 | the integer, or the right error for fraction, exponent, leading or minus zero |
| Jcs.JcsParser.ParseArray | canonical-rs/src/jcs.rs:174-203 | the items in order, or the first error |
| Jcs.JcsParser.ParseObject | canonical-rs/src/jcs.rs:129-172 | the members, or the first error; a repeated key is one |
| Jcs.JcsParser.ParseValue | canonical-rs/src/jcs.rs:109-127 | any value, by its first symbol |
| Jcs.JcsParser.ParseDocument | canonical-rs/src/jcs.rs:96-107 | one value with nothing but space around it |
| Jcs.EscapeString | canonical-rs/src/jcs.rs:380-405 | appends the quoted text, or refuses a byte-order mark |
| Jcs.Serialize | canonical-rs/src/jcs.rs:407-447 | appends the canonical text of the value exactly when no string in it starts with a byte-order mark |
| JcsRoundTrip.RoundTrip | canonical-rs/src/jcs.rs:96-447 | parsing the printed text of any value gives that value |
| JcsRoundTrip.PrintInjective | canonical-rs/src/jcs.rs:407-447 | different values have different canonical texts |
| Jcs.CanonicalFixedPoint | canonical-rs/src/jcs.rs:454-459 | canonicalizing keeps the value and is idempotent; a text is its own canonical form exactly when some value prints as it |
| Merkle.BinaryMerkle | canonical-rs/src/merkle.rs:17-38 | the level loop computes the recursive pairwise root; no leaves is an error |
| Merkle.RootBinds | canonical-rs/src/merkle.rs:17-38 | equal roots over equally many leaves mean equal leaves, or the proof returns a collision |
| Merkle.RepeatedLastLeaf | canonical-rs/src/merkle.rs:29-32 | with an odd number of leaves, repeating the last keeps the root: why the count matters |
| Merkle.LeafBinds | canonical-rs/src/merkle.rs:107-118 | a leaf hash pins down name and content of its namespace, or gives a collision |
| Merkle.ComputeStateRoot | canonical-rs/src/merkle.rs:122-149 | duplicate scan and leaf loop compute the root over the names in sorted order, with the same errors |
| Merkle.StateRootBinds | canonical-rs/src/merkle.rs:122-149 | over one set of names, equal roots mean the same bytes under each name, or a collision |
| Merkle.StateBinds | cal-reducer-rs/src/state.rs:52-59 | two states with one state root have equal contents of all eight namespaces, or the proof returns a collision |
| DslParse.Parser.BuildNode | dsl-rs/src/parse.rs:289-330 | the mutating recursion returns the tree and leaves the node and cost counters as the budget-threading specification says |
| DslParse.BuildExact | dsl-rs/src/parse.rs:56-71 | from any depth and budget, building succeeds exactly when the node is well formed and its depth, nodes and cost fit |
| DslMeasure.ParserExact | dsl-rs/src/parse.rs:289-345 | an expression parses exactly when it is well formed with depth at most 10, at most 100 nodes and cost at most 1000; the reported cost is the sum over the tree |
| DslEval.EvalBoolean | dsl-rs/src/evaluate.rs:189-213 | the three passes: runtime faults first, then validation faults, then the fold |
| DslEval.FaultsDominate | dsl-rs/src/evaluate.rs:189-213 | some runtime fault makes the whole a runtime fault, else an invalid argument makes it invalid, else `and`/`or` over all arguments |
| DslScope.ScopeNonInterference | dsl-rs/src/parse.rs:94-129 | the outcome of a precondition depends on `state` and `params` only, of a post-condition or invariant on `before`, `after` and `params` only |
| DslScope.VersionConservative | dsl-rs/src/evaluate.rs:229-234 | under version 1.1 an expression has its 1.2 outcome, reason included, or is V11_UNSUPPORTED |
| Owners.CheckOwnerRecord | cal-reducer-rs/src/migrate.rs:16-48 | true exactly for 1 to 16 non-empty strictly ascending owners and a threshold between 1 and their number |
| Reducer.CommitStaged | cal-reducer-rs/src/apply.rs:163-166 | the staged effects are applied in order, up to the first that fails |
| Reducer.ScanCounters | cal-reducer-rs/src/apply.rs:56-74 | the flag is set exactly when some counter is at or above the threshold |
| LedgerStep.Refines | cal-reducer-rs/src/apply.rs:77-246 | on every represented state the reducer gives the ledger's verdict and a state that represents the stepped ledger; only finalizing, feeds and ticks reach the rest of the state |
| LedgerStep.StepKeepsSound | cal-reducer-rs/src/apply.rs:81-210 | every accepted event keeps escrow zero before VALIDATED, nothing staged before EXECUTED, and one CAL per agent |
| Lifecycle.MovesFollowTable | cal/src/lifecycle.ts:62-82 | every accepted lifecycle event moves exactly its own CAL along an edge of the table that carries this event type, and closes it exactly at a terminal stage |
| Conservation.StepConserves | cal-reducer-rs/src/apply.rs:81-229 | balances, fee window and escrows keep their total over every accepted event; with the total in range nothing overflows but a refund beyond its escrow |
| TsReducer.TsCommitStaged | cal-reducer/src/apply.ts:143 | the staged effects are applied in order under the TypeScript rules, up to the first that fails |
| TsReducer.TsScanCounters | cal-reducer/src/apply.ts:57-69 | the flag is set exactly when some integer counter is at or above an integer threshold, negative or not |
| Parity.DeltasExactly | cal-reducer/src/delta.ts:40-76 | the ports treat one effect alike, codes included, exactly when a delete meets no null above its last segment, and an add or sub of an integer onto an integer, an absent or a null target has both in uint256 and the target not null |
| Parity.CommitsExactly | cal-reducer/src/apply.ts:143 | they agree on every prefix of a list of effects exactly when each effect is even on the state it is applied to, up to the first that fails |
| Parity.TicksExactly | cal-reducer/src/apply.ts:199-206 | they treat a tick alike exactly when, if it is later than the current one and a uint256, the current one is not negative and a counter that reaches the threshold does so within uint256 |
| Parity.NegativeAddParts | cal-reducer/src/delta.ts:60-65 | a CAL about to finalize that adds minus one to an amount of the treasury: Rust rejects the event as BAD_DELTA, TypeScript finalizes it with the amount lowered |
| Parity.NegativeThresholdParts | cal-reducer/src/apply.ts:57-69 | a negative guard threshold that a counter reaches: both ports accept the tick and only TypeScript goes into bounded mode |
| Parity.NegativeTickParts | cal-reducer/src/apply.ts:199-206 | a negative current tick: TypeScript accepts every next tick, Rust none |
| Parity.EventFollows | cal-reducer/src/apply.ts:71-209 | on a represented state with even money, the ports differ on an even event only where the checked one reports OVERFLOW |
| Parity.EventsExactly | cal-reducer/src/apply.ts:71-209 | with even money and the supply in range, they accept an event with the same state or both reject it, committing alike at every staged effect, exactly when the event is even |
| Parity.PortsAgree | cal-reducer/src/apply.ts:71-209 | with the supply in range they accept the same even events with the same states; a code differs at most on an excessive refund |
| Parity.FoldPorts | cal-reducer/src/fold.ts:17-27 | with the supply in range and every event even along the run, they fold the same logs to the same states and reject the others at the same event |
| Plain.PlainRun | cal-reducer/src/apply.ts:71-209 | from a plain state, plain events with safe effects keep the state plain and every event of the run even |
| Runs.MaterializeLog | cal-reducer-rs/src/fold.rs:9-18 | the loop folds the log, and reports the index of the first rejected event |
| Runs.FoldSplit | cal-reducer-rs/src/fold.rs:9-18 | folding a tail from a snapshot gives the state of folding the whole log |
| Runs.RunKeeps | cal-reducer-rs/src/apply.rs:77-246 | over every accepted run with safe effects the ledger stays represented and sound and the supply is that of the start |
| Runs.NoncesCountTerminals | cal-reducer-rs/src/apply.rs:173-209 | an agent's nonce is its start value plus the number of its terminal events |
| Runs.FeesCountRetained | cal-reducer-rs/src/apply.rs:147-210 | the fee window is its start value plus, for every closed CAL, its charge before VALIDATED or its escrow without the refund |
| Runs.CommitCongruent | cal-reducer-rs/src/delta.rs:45-76 | on states that differ in protected paths only, safe effects give the same verdict and again such states |
| Runs.OnlyFinalizedEffects | cal-reducer-rs/src/apply.rs:147-210 | all or nothing over interleaved runs: outside the protected paths the final state is the start with the effects of the finalized CALs, the feeds and the ticks performed in log order |
| OwnerRuns.RecordsStay | cal-reducer-rs/src/delta.rs:24-60 | over every run whose effects reach owners and threshold only by a set or delete of exactly that field, each record holding both stays well formed |
| OwnerRuns.AddGoesRound | cal-reducer-rs/src/delta.rs:61-73 | one accepted effect outside the check: on any record whose threshold equals its owner count an `add` of one leaves it malformed |
| OwnerBound.DeltaKeepsExactly | cal-reducer-rs/src/delta.rs:24-76 | on records within the bound, an accepted effect keeps them there exactly when: it deletes; or every record inside the written value is incomplete or well formed and, at or below an owner field, the other field is absent or the two are well formed together |
| OwnerBound.KeepsBoundCases | cal-reducer-rs/src/delta.rs:24-76 | that condition by path and operation on a complete record; on the threshold it is a new value from one to the number of owners |
| OwnerBound.RecordsStayExactly | cal-reducer-rs/src/delta.rs:24-76 | over an accepted run the records are within the bound before and after every event and every committed effect exactly when each committed effect keeps it on the state it is applied to |
| Gas.SumStaticGasUnits | cal-gas-rs/src/units.rs:73-95 | the accumulator over steps, post-conditions and invariants is the sum of the parts, or the first error |
| Gas.BillAddsUp | cal-gas-rs/src/settle.rs:47-95 | charge is fee plus consumption; after VALIDATED the fee is the flat fee and charge plus refund is exactly the escrow; a spam charge is covered by the balance |
| Quorum.CheckQuorum | validator-rs/src/validate.rs:131-152 | the two scans give the verdict in order: structure first, count last |
| Quorum.QuorumExact | validator-rs/src/validate.rs:131-152 | over a well-formed record the quorum is met exactly when the signers are the ascending listing of at least threshold owners; the cardinality test is implied |
| Quorum.QuorumReachable | validator-rs/src/validate.rs:131-152 | any set of at least threshold owners can sign |
| Validator.CheckCapability | validator-rs/src/validate.rs:57-73 | the filled set grants an action exactly when each scope it needs is granted or implied by a granted one |
| Validator.CheckPostConditions | validator-rs/src/validate.rs:289-299 | the reason of the first post-condition that does not hold, or none |
| Validator.DrivePhaseB | validator-rs/src/validate.rs:266-358 | the imperative phase gives the events, reason and bill of the specification, whatever was emitted before it |
| Acceptance.FailureTouchesOnly | cal-reducer-rs/src/apply.rs:176-209 | an accepted failure or expiry changes the CAL's entry, its agent's balance and nonce and the fee window, with balance and fees splitting the escrow, and nothing else anywhere |
| Acceptance.PhaseAShape | validator-rs/src/validate.rs:160-262 | a CAL stopped before VALIDATED gets one terminal event carrying the whole charge, which its balance covers; a CAL that passes can pay the escrow |
| Acceptance.PhaseBShape | validator-rs/src/validate.rs:266-358 | after VALIDATED there are four shapes of event list, the gas recorded is within budget, and charge plus refund is the escrow requirement |
| Acceptance.ResumeSettles | validator-rs/src/validate.rs:393-397 | from VALIDATED and on whatever snapshot was validated, the reducer takes the whole list exactly when the refund is within the escrow and the effects of a CAL that finalizes commit; then the agent has the refund, the treasury the rest, and only a finalized CAL leaves effects |
| Acceptance.ValidateAccepted | validator-rs/src/validate.rs:363-370 | the reducer accepts every event of an Ok validation in order exactly when the effects of a CAL that finalizes commit; then the CAL leaves, and the agent's loss and the treasury's gain are the total charge of the bill |
| Gates.WhoPays | validator-rs/src/validate.rs:160-262 | before VALIDATED only a fresh, timely CAL of an admitted action that fails on signatures, scope or a false precondition is charged, the smaller of balance and flat fee; every other stop costs nothing |
| Gates.FinalizedExactly | validator-rs/src/validate.rs:266-358 | a CAL finalizes exactly when it is in time, all its steps ran with all post-conditions true, the gas for its effects is within budget and all invariants hold; it records the effects of its steps in order |
| Emergency.BoundedInvariants | dsl-rs/src/emergency.rs:33-60 | in bounded mode the invariants hold exactly when the declared ones do and the claimed state after the CAL is still bounded and shows, as int256, no less net asset value and developer fund than the one claimed before |
| Emergency.BoundedModeGuards | validator-rs/src/validate.rs:326-331 | in bounded mode nothing finalizes unless the claims of its trace pass, whatever invariants the CAL declares |
| Claims.TruthfulGuards | validator-rs/src/validate.rs:326-331 | with true claims at the three guarded places, the claims pass exactly when committing the effects leaves bounded mode on and lowers neither amount |
| Claims.LiveGuards | validator-rs/src/validate.rs:363-370 | for every CAL that finalizes and is accepted, true claims or not, the live state respects the three guards exactly when committing its effects to the snapshot does, which a caller can check before the call |
| Claims.LiveGuardsResumed | validator-rs/src/validate.rs:393-397 | the same for a resume, on the snapshot at that time |
| Claims.BoundedModeKept | validator-rs/src/validate.rs:363-370 | in bounded mode, with true claims, a CAL that finalizes and is accepted leaves the live state bounded, with no less net asset value and developer fund |
| Claims.BoundedResumeKept | validator-rs/src/validate.rs:393-397 | the same for a resume, where bounded mode and claims are those of the later snapshot |
| Claims.ClaimsDecide | validator-rs/src/validate.rs:326-331 | in bounded mode a CAL finalizes exactly when its own checks hold (time, steps, post-conditions, declared invariants, gas) and the claims of its trace pass: the guards never look at its effects |
| Claims.ClaimsCanLie | validator-rs/src/validate.rs:363-370 | on any bounded state, any CAL that passes the gates before VALIDATED, whose own checks hold and whose claims pass finalizes and is accepted although its effect lowers the live net asset value, by any amount it had |
| Staging.PhaseBSame | validator-rs/src/validate.rs:266-358 | phase B gives the same verdict on snapshots that differ in protected paths only |
| Staging.StagedIsAtomic | validator-rs/src/validate.rs:363-397 | when stage 1 reaches VALIDATED, resuming at once on the state it left gives the verdict, events and final state of one atomic validation |
| Staging.LateResume | validator-rs/src/validate.rs:266-274 | whatever accepted events of other CALs come between, with an equal flat fee the resumed phase is accepted exactly when its effects commit, the refund is within the escrow, and the treasury gains the charge, which is the fee plus the gas consumed, or the fee alone on expiry |
| LateFees.RefundExactly | cal-gas-rs/src/settle.rs:75-92 | after VALIDATED the refund is the gas budget without the gas consumed: none on expiry, otherwise the price of the gas for all recorded effects, up to the budget |
| LateFees.ResumeExactly | cal-reducer-rs/src/apply.rs:147-210 | with any fees, one resume is accepted exactly when budget minus gas consumed is within the escrow and the effects of a CAL that finalizes commit |
| LateFees.EveryResumeCovered | cal-gas-rs/src/settle.rs:75-92 | all resumes of a waiting CAL are accepted exactly when its budget at the present fee is within the old fee plus budget; always with an own limit, without one exactly when the fee rose by one percent at most |
| LateFees.ExpiryCovered | cal-gas-rs/src/settle.rs:75-81 | expiring after VALIDATED is accepted under exactly the same condition |
| Migration.MigrateRegistry | cal-reducer-rs/src/migrate.rs:53-87 | the loop that threads the state through all agents is one independent rewrite of each record |
| Migration.MigrationIdempotent | cal-reducer-rs/src/migrate.rs:53-87 | migrating twice is migrating once |
| Migration.OtherPathsKept | cal-reducer-rs/src/migrate.rs:53-87 | every path off the agent table, and every path at or below another field of an agent, reads as before |
| Migration.MigratedWellFormed | cal-reducer-rs/src/migrate.rs:77-81 | a migrated record is within the owner bound exactly when there was a key |
| Migration.OwnerGateKept | validator-rs/src/validate.rs:204-231 | one envelope opens the owner gate of the v1 record exactly when it opens that of the migrated one, and is then priced the same |
| Migration.SignatureGateKept | validator-rs/src/validate.rs:108-123 | so do all signature gates together; owner gas on acceptance and the bill on rejection are equal |
| Node.FoldEvents | orchestrator-rs/src/node.rs:135-153 | the loop folds a list of events, with the root after each, up to the first rejection |
| Node.SubmitLoop | orchestrator/src/node.ts:227-311 | the submissions of a block are processed in order and their events collected in log order |
| Node.TickLoop | orchestrator/src/node.ts:195-319 | one block: regression check, tick event, submissions, checkpoint |
| Node.RunLoop | orchestrator/src/node.ts:325-339 | a run is the left fold of the tick step |
| Replay.SubmitFolds | orchestrator/src/node.ts:227-311 | a submission appends exactly its recorded events, and each recorded root is the root of the log up to there |
| Replay.TickFolds | orchestrator/src/node.ts:134-142 | one tick keeps state, event count and last hash those of the log, and the carried-scalar global root is the one rebuilt from the log |
| Replay.RunFolds | orchestrator/src/node.ts:325-339 | throughout a run the live state is the fold of the log and every checkpoint a root of it |
| Replay.RunSplit | orchestrator/src/node.ts:325-339 | resuming a run from the live state in the middle gives the full run, errors included |
| Replay.ScanStateRoots | cal-reducer-rs/src/fold.rs:21-37 | the loop takes the root after each event, up to the first that is rejected or leaves a state without a root, with its index |
| Replay.ScanExactly | cal-reducer-rs/src/fold.rs:21-37 | each root is that of its log prefix, and the scan stops early exactly at the first event that the reducer rejects, or after which the state has no root |
| Replay.ScanComplete | cal-reducer-rs/src/fold.rs:21-37 | a log that folds is scanned to its end with one root per prefix |
| Replay.GreedyScan | orchestrator/src/node.ts:364-371 | the nested loops decide the greedy search |
| Replay.GreedyExact | orchestrator/src/node.ts:364-371 | the greedy search succeeds exactly when the checkpoints are a subsequence of the roots |
| Replay.VerifyLoop | orchestrator/src/node.ts:361-373 | the check is: replay without error, same final root, checkpoints found in order |
| Replay.RunVerifies | orchestrator/src/node.ts:361-373 | replaying a run verifies it whenever every block appended an event |
| ReplayExact.AppendsExactly | orchestrator/src/node.ts:195-319 | a block that runs appends an event exactly when its tick is later than that of the live state before it, or one of its submissions is a resume, or is of an unknown CAL of an agent with nothing in flight: read off the state before the block |
| ReplayExact.VerifiesUnlessRepeated | orchestrator/src/node.ts:361-373 | for any root function, a run passes the check exactly when every block appended an event, or the proof returns two prefixes of its log with one root |
| LogClock.StatesDiffer | cal-reducer-rs/src/apply.rs:81-246 | along the log of a node no state comes back: any two prefixes lead to different contents of the namespaces |
| ReplayExact.VerifiesExactly | orchestrator/src/node.ts:361-373 | so, with state roots, a run passes the check exactly when every block appended an event, or the proof returns a hash collision |
| Replay.IncreasingTicksVerify | orchestrator/src/node.ts:215-224 | in particular whenever the ticks strictly increase |
| Replay.IdleBlockFails | orchestrator/src/node.ts:367-371 | a run of one block that appends nothing is sound and fails the check |
| Replay.GlobalRootBinds | canonical-rs/src/merkle.rs:52-68 | one global root means one state root, log length and, of a log that is not empty, last event hash, or a collision |
| Replay.GlobalRootBindsState | canonical-rs/src/merkle.rs:122-149 | and where the node's roots are state roots, the same contents of all namespaces |
| NodeStaging.StagedSubmissions | orchestrator-rs/src/node.rs:176-250 | a validate-only submission resumed next with the same trace ends in the live state, events, roots and verdict of one atomic submission, or in the same error |
| NodeLog.RunEvents | orchestrator/src/node.ts:226-310 | the log of any program holds lifecycle events with safe effects and ticks, nothing else |
| NodeEffects.OnlyFinalizedSubmissions | orchestrator-rs/src/node.rs:157-261 | outside the protected paths a run ends in genesis with, in program order, the ticks of its blocks and for each submission that finalized the effects its trace records for the steps of its CAL; all of them commit |
| NodePorts.RunConserves | orchestrator-rs/src/node.rs:157-261 | every run with safe effects ends in a state that represents the ledger of its log, with the supply of genesis; the treasury gained what it kept of the closed CALs |
| NodePorts.RunPorts | orchestrator/src/node.ts:325-339 | under one validator, both reducers run every plain program from a plain genesis with the supply in range to the same states, events, roots and verdicts, and to errors that differ at most in the code of a rejection; the state stays plain, the supply never changes |
| EitherPort.NoDoubleFinalization | orchestrator/src/node.ts:325-339 | on plain programs no CAL finalizes twice over the TypeScript reducer either, or two CALs are a returned hash collision |
| EitherPort.AtomicRejectedExactly | orchestrator/src/node.ts:294-301 | on a plain live state, over either reducer an atomic submission with a plain trace ends in a rejected event exactly when it finalizes and its effects do not commit |
| EitherPort.ResumeRejectedExactly | orchestrator/src/node.ts:240-253 | so does a resume submission, exactly when the refund is beyond the escrow or the effects of a finalized CAL do not commit |
| EitherPort.OnlyFinalizedSubmissions | orchestrator/src/node.ts:325-339 | and plain runs do the same to the state |
| EitherPort.DoubledFeeRefused | orchestrator/src/node.ts:325-339 | the run of `NodeFees.DoubledFeeRefused` is plain and stops over either reducer |
| NodeSafety.AtomicRejectedExactly | orchestrator-rs/src/node.rs:239-240 | an atomic submission ends in an event the reducer rejects exactly when the validator finalizes it and its effects do not commit |
| NodeResume.ResumeRejectedExactly | orchestrator-rs/src/node.rs:185-198 | a resume submission of a waiting CAL ends in an event the reducer rejects exactly when it validates and the budget without the gas it consumed is beyond its escrow, or it finalizes and its effects do not commit |
| NodeResume.EverySubmissionCovered | orchestrator-rs/src/node.rs:185-198 | at the live tick all resume submissions of a waiting CAL go through exactly when the budget without the least a resume consumes is within its escrow; the least is nothing once expired, before that the price of static gas, two bytes and the least owner authorization, up to the budget |
| NodeResume.ResumeMoves | cal-reducer-rs/src/apply.rs:176-210 | a resume submission that goes through gives the agent the budget without the gas consumed and the treasury the rest of the escrow |
| NodeResume.LateSubmission | orchestrator-rs/src/node.rs:176-250 | from any live state of a run, after a validate-only submission and then any program of other submissions and ticks, the CAL still waits with its escrow, the supply is unchanged, and all resume submissions at the live tick go through exactly when budget at the present fee without the least consumption is within the old fee plus budget; over all ticks, exactly when the whole budget is |
| NodeFees.FeeRaised | orchestrator-rs/src/node.rs:176-250 | two funded agents: the first leaves a CAL waiting, the CAL of the second sets the flat fee; both submissions are accepted, and resuming the first then goes through exactly when the fee rose by one percent at most, else the node stops; or the two CALs are a hash collision, which the proof returns |
| NodeFees.DoubledFeeRefused | orchestrator-rs/src/node.rs:157-261 | a concrete genesis and program in which the fee doubles while a CAL waits: the run goes through, and stops when the resume is added |
| NodeClaims.SubmissionLies | orchestrator-rs/src/node.rs:200-250 | any submission in bounded mode that ingress takes in, that passes the gates, whose own checks hold and whose claims pass goes through and finalizes although its effect lowers the live net asset value, by any amount it had |
| NodeClaims.NavLost | orchestrator-rs/src/node.rs:157-261 | a concrete bounded genesis and a program of one signed, admitted, funded submission after which the live net asset value is zero instead of one |
| NodeSafety.SubmitReaches | orchestrator-rs/src/node.rs:176-250 | every accepted submission in any mode leads from a boundary to a boundary (CALs in flight wait at VALIDATED, one per agent, on the next nonce of that agent), or two CALs are a hash collision, which the proof returns |
| NodeSafety.CalHashBinds | cal/src/hash.ts:24-37 | two CALs with one hash agree up to their signatures, or the proof returns a collision |
| NodeSafety.NoDoubleFinalization | validator-rs/src/validate.rs:188-192 | over any program from nothing in flight, finalized CALs of one agent carry strictly increasing nonces and no CAL hash finalizes twice, or two submitted CALs are a hash collision, which the proof returns |

## Left out

- Ed25519, TON Connect digests, SHA-256 internals and base64: verdicts and hashes are inputs.
- NFC tables, assigned code points and UTF-8 encoding: strings are taken to be normal and assigned, so the code paths that reject other strings are absent.
- Reading raw event objects: the reducer takes typed events, so the order of field errors inside one event object is not modelled.
- Free-text details of failures and positions in error messages: only the codes are kept.
- The CAL wire schema, address parsing, framing and integer encoders: branch reading.
- `pp2/`, `tolk/`, `m2-registry/` and `interop/`: network scripts and contracts outside the kernel.
- The Go ports: the same machines again; only the shared behaviour is modelled.
- Stream trees of more than one leaf: the node only ever builds the single global leaf.
- Genesis: runs start from an arbitrary state that represents a ledger.
- NodePorts.RunPorts: compares the reducers under one validator, and on plain programs only. The validator, gas layer and expression language are modelled once, after Rust; the TypeScript ones read any integer as a nonce, limit, price or fee, and throw on a malformed version envelope that Rust reports as an outcome.
- Parity.EventsExactly: assumes even money: no balance and no fee window beyond uint256 and no negative nonce, as in genesis.
- Parity.FoldPorts: one way only, because a later effect or tick can undo what an uneven one did; event by event the condition is exact (`Parity.EventsExactly`).
- TsReducer.TsCommitStaged: JavaScript's inherited property names count as absent; an in-flight entry whose agent, escrow or staged list is malformed, which no event writes, is treated as in Rust; and owners are ordered by code point, not by UTF-16 unit.
- Node.TickLoop: takes every CAL, event and state to have a hash; a string in one that starts with a byte-order mark makes the source stop with an error there (`Jcs.Serialize` says exactly when), and that error is absent.
- Node.FoldEvents: the same for the root after each event.
- Node.CalHash: total, so the canonicalization error of a CAL with such a string is absent.
- Replay.VerifyLoop: replays with the node's total root; `Replay.ScanExactly` covers states without one.
- Acceptance.ResumeSettles: assumes a gas budget within uint256, which is where the Rust port panics; so does `LateFees.ResumeExactly`.
- OwnerBound.RecordsStayExactly: assumes safe staged effects.
- Claims.BoundedModeKept: takes the truth of the claims as given, because the code never checks it.
- Parity.PortsAgree: assumes safe staged effects, which may otherwise write the protected paths themselves.
- DslEval.FaultsDominate: claims nothing about which of several faults of one phase is reported, or about arguments that are neither faults nor booleans.
