# A Dafny model of the AP2 payment guard

`runcycles_ap2` wraps one payment moment in a reservation on a Cycles server: the guard reserves when a
`with` block is entered, the caller charges a payment provider in the body, and on exit the guard commits or
releases. This project models that wrapper in Dafny and proves that a payment attempt is reserved once, settled at
most once, and settled or released exactly as it is reported and requested. `dafny verify dfyconfig.toml` checks
all of it.

## What is modelled

| file | what it holds |
|---|---|
| `Basics.dfy`, `Mandates.dfy` | optional values, Python truthiness and slicing, run-time typed values, the mandate |
| `Amounts.dfy` | `AP2Mandate.amount_micros` and `validate_micros`: digit fold, scaling, the two magnitude bounds |
| `Keys.dfy` | consume-once scope, idempotency keys, suffix sanitising, and a parser that reads keys back |
| `Payloads.dfy` | the reserve, commit and release bodies, filled in place, and the functions they are proved against |
| `Lifecycle.dfy` | the guard as a state machine: what it sends, keeps and raises for every reply |
| `Guard.dfy`, `AsyncGuard.dfy` | `GuardedPayment` and `AsyncGuardedPayment` as two classes with their own fields, each proved against the lifecycle |
| `GuardRuns.dfy`, `Drivers.dfy` | what holds of every single use of a guard; whole uses of the two classes side by side |
| `WorstCase.dfy` | one guard against a server that applies requests late and lets a release reverse a settlement |
| `Reuse.dfy` | a guard object entered a second time |
| `Server.dfy` | the server rules that are assumed, and what the server keeps under them |
| `Protocol.dfy`, `Parties.dfy` | any number of guards, a lossy and duplicating network, expiry; each guard follows one lifecycle run |
| `Interleavings.dfy`, `Verdicts.dfy` | the invariant of every reachable world and the theorems about it |
| `Embedding.dfy` | the protocol leaves nothing out: every use of a guard happens in some run, and so does a charge that expires |
| `Provenance.dfy` | the way back: nothing is on file, settled or released unasked, and no budget is stranded behind an acknowledgement |
| `Replays.dfy` | when a payment can go through, two bodies can run on one reservation, and a commit can meet a release |

## Assumptions

- The mandate is not changed while a guard uses it. Its amount is given as the parsed decimal: no decimal, not
  finite, or a tuple of sign, digits and exponent without superfluous leading zeros.
- SHA-256 and `str.upper` are parameters (`Platform`). A hex digest has 64 lowercase hex characters. Collision
  freedom is assumed nowhere but in `Keys.ConsumeOnceLock` and `Verdicts.SharesBucketMeans`, and there only for
  the two inputs at hand.
- Response flags may combine in any way. Error parsing and receipt construction do not raise.
- The server (`Server.dfy`) replays a known key for the same payload and refuses it for another one
  (README.md:158-163 of the repository); a reservation that is not active refuses commit and release
  (runcycles_ap2/exceptions.py:62-68). It may refuse anything else. In the protocol only grants and success
  replies must be genuine: every other reply, explicit rejections included, may reach a guard at any time, and a
  request once sent may be handled at any later time, any number of times. So the multi-guard theorems do not
  rest on the rule that an explicitly rejected commit had no effect (runcycles_ap2/guard.py:320-324). Where
  that rule is needed, in `WorstCase.dfy`, it is not assumed: the replies that guarantee that a commit had no
  effect are a parameter there, and the theorem says for which of them the guard is safe.
- The tenant of a participant is the one to which the server attributes its requests.

## Where the code and its documentation differ

The model follows the code in each case.

- A commit is released and reported as failed on any response that is not a success, transport error, 5xx or one of
  the three terminal codes. The documentation speaks of 4xx with an unrecognised code (README.md of the
  repository, line 124, and runcycles_ap2/exceptions.py:105-108); a response without any code, or with a status
  outside 4xx, takes the same branch (`WorstCase.DocumentedClass`). So a server that guarantees no more than the
  documented class is not enough: after a 408 without code the release may undo a commit that was applied
  (`WorstCase.DocumentedRuleIsNotEnough`).
- The sign branch of `amount_micros` is called unreachable (runcycles_ap2/models.py:109). A negative zero reaches
  it, and nothing else does (`Amounts.SignBranchIsForNegativeZero`).
- The comment on the scaling step bounds the shift by 27 (runcycles_ap2/models.py:117); it never exceeds 26
  (`Amounts.BoundedWork`).
- Transport trouble on reserve is documented as a denial (README.md of the repository, line 122). That holds for a
  response that reports it; an exception of the client, a cancellation, or a success body that does not validate
  escapes unwrapped (`GuardRuns.EntryEscapesIff`, `GuardRuns.EntryDeniedIff`).
- A different `checkout_hash` is documented to cause a mismatch (README.md of the repository, line 161). That holds
  for the value that reaches the server: an extra dimension may stand in for the mandate's own
  (`Payloads.CheckoutHashIsToldIff`).

## Model

| member | source | states |
|---|---|---|
| Amounts.AmountMicros | runcycles_ap2/models.py:54-130 | the conversion with both bounds, the sign branch, the digit fold and the scaling meets a specification that has no digit cap: a nonzero amount is accepted exactly when its micro-cents fit int64, a positive zero exactly for exponents -8 to 18, a negative zero never; each failure raises the right class |
| Amounts.DigitCapNeverDecides | runcycles_ap2/models.py:90-101 | a nonzero amount that the coarse digit cap rejects is over the int64 ceiling as well, for every exponent |
| Amounts.BoundedWork | runcycles_ap2/models.py:111-121 | whenever scaling is reached the shift is 0 to 26, the folded integer below 10^19 and the product below 10^27 |
| Amounts.FoldIsPositional | runcycles_ap2/models.py:111-113 | folding in the digits one by one gives the positional value of the digit string |
| Amounts.Exact | runcycles_ap2/models.py:103-121 | an accepted amount is the decimal's value times 10^8 with nothing rounded away |
| Amounts.AcceptedByValue | runcycles_ap2/models.py:54-130 | acceptance by value, for every mandate: a finite amount in US dollars with at most eight decimal places, and positive and within 2^63-1 micro-cents, or a zero spelled without minus sign and with exponent up to 18 |
| Amounts.FaultOf | runcycles_ap2/models.py:66-67 | a rejected amount raises the currency error exactly when the upper-cased currency is not USD, whatever else is wrong, and else the mandate error |
| Amounts.SignBranchIsForNegativeZero | runcycles_ap2/models.py:108-110 | the branch called unreachable is reached exactly by negative zeros with an exponent from -8 to 18 |
| Amounts.OrderPreserved | runcycles_ap2/models.py:103-130 | two accepted spellings give equal micro-cents exactly when they denote equal numbers, and a larger number gives more |
| Amounts.AmountInRange | runcycles_ap2/models.py:122-130 | every accepted amount lies in 0 to 2^63-1 |
| Amounts.ValidateMicros | runcycles_ap2/_validation.py:14-30 | a caller's amount passes exactly when it is a plain integer (no bool, no float) within 0 to 2^63-1, and then unchanged |
| Keys.KeyRoundTrip | runcycles_ap2/mapping.py:70-93 | scope, 32-character hash, phase and sanitised 64-character suffix can be read back from every key |
| Keys.KeyUnambiguous | runcycles_ap2/mapping.py:70-93 | two keys are equal exactly when scope, hash, phase and sanitised suffix (or its absence) are all equal |
| Keys.BucketsAgree | runcycles_ap2/mapping.py:70-93 | two mandates share a bucket in one phase exactly when they do in every phase, and keys of different phases never coincide |
| Keys.KeyText | README.md:153-156 | the text of every key as documented: `ap2:open_mandate:` or `ap2:tx:`, 32 characters of the SHA-256 of the open mandate hash or of the transaction id, phase, and sanitised suffix of at most 64 characters |
| Keys.BucketOfMandate | runcycles_ap2/mapping.py:46-67 | reserve keys are equal exactly when the 32-character digests of the two open mandates agree, or, if neither mandate has one, those of the transactions |
| Keys.ConsumeOnceLock | runcycles_ap2/mapping.py:46-67 | barring a hash collision, reserve keys are equal exactly for the same open mandate, or without one for the same transaction |
| Keys.ScopesNeverCollide | runcycles_ap2/mapping.py:46-83 | a mandate with an open mandate never shares a key with one without, even under equal hashes |
| Keys.KeyForm | runcycles_ap2/mapping.py:82-93 | a key has at most 122 characters, all ASCII alphanumerics or one of colon, underscore, hyphen and dot, with the phase intact before any suffix |
| Keys.SafeAmongTokens | runcycles_ap2/mapping.py:84-91 | the safe characters are the ASCII letters and digits, underscore, hyphen and dot, told as those token characters of section 3.2.6 of RFC 7230 that are none of its other twelve marks |
| Keys.SanitiserLaws | runcycles_ap2/mapping.py:84-92 | the sanitiser keeps every safe character in place and turns every other one into an underscore, keeps length, is idempotent, commutes with truncation, changes nothing exactly on safe text, and yields only token characters of section 3.2.6 of RFC 7230 |
| Payloads.MergeExtras | runcycles_ap2/mapping.py:139-143 | merging extra dimensions gives the extras overridden by the canonical ones, in whatever order they are visited |
| Payloads.BuildDimensions | runcycles_ap2/mapping.py:123-143 | the dimensions built in place are the extras overridden by the canonical ones, optional ones present only when not empty |
| Payloads.BuildSubject | runcycles_ap2/mapping.py:96-146 | the subject filled in place has exactly the non-empty scope fields and the merged dimensions |
| Payloads.BuildReservationBody | runcycles_ap2/mapping.py:192-232 | the finished reserve body, or the fault of the amount conversion |
| Payloads.BuildCommitBody | runcycles_ap2/mapping.py:235-261 | the finished commit body with the caller's amount if there is one, else the mandate's, or the fault of either |
| Payloads.DimensionSources | runcycles_ap2/mapping.py:123-143 | where each dimension comes from: five always from the mandate and run, the two hashes from the mandate or else from an extra of that name |
| Payloads.RequestSays | runcycles_ap2/mapping.py:96-232 | where every field of an accepted reserve body comes from: key, dry run, time to live, overage policy, action, US dollar estimate, metadata, each scope field, each canonical dimension, and the caller's own dimensions of any other name |
| Payloads.ReplayCannotCrossPayments | runcycles_ap2/mapping.py:123-232 | equal reserve bodies imply equal transaction, run, payee, upper-cased currency, amount, effective checkout hash, scope and open mandate, whatever extras were passed |
| Payloads.ExtraStandsInForCheckoutHash | runcycles_ap2/mapping.py:135-143 | for every configuration: moving the effective checkout hash between the mandate and an extra dimension of that name leaves the reserve body the same |
| Payloads.CheckoutHashIsToldIff | README.md:158-163 | a reserve body tells the checkout hash of the mandate itself exactly if no checkout hash reaches the server at all; what it always tells is the effective one |
| Guard.GuardedPayment.constructor | runcycles_ap2/guard.py:57-100 | a new guard holds nothing, has committed nothing and is not aborted |
| Guard.GuardedPayment.SetActualMicros | runcycles_ap2/guard.py:120-128 | a valid amount becomes the amount to commit; any other raises and leaves the guard unchanged |
| Guard.GuardedPayment.AttachReceiptFields | runcycles_ap2/guard.py:130-132 | the fields override those attached before and touch nothing else |
| Guard.GuardedPayment.AbortPayment | runcycles_ap2/guard.py:134-136 | the reason, cut to 256 characters, marks the guard as aborted and touches nothing else |
| Guard.GuardedPayment.Enter | runcycles_ap2/guard.py:140-211 | state, call and outcome of entering, with the payload of a dry run, are those of the lifecycle for every reply |
| Guard.GuardedPayment.ExitWith | runcycles_ap2/guard.py:213-232 | state, calls and outcome of leaving are those of the lifecycle for every end of the body and every reply |
| Guard.GuardedPayment.HandleCommit | runcycles_ap2/guard.py:236-348 | the commit, and the release after an explicit rejection only, with the exception raised in each case |
| Guard.GuardedPayment.HandleRelease | runcycles_ap2/guard.py:350-385 | one release call on the held reservation; the result is true exactly on a success reply, else it says why |
| Guard.GuardedPayment.BuildReceipt | runcycles_ap2/guard.py:387-408 | the receipt of the current state, changing nothing else |
| AsyncGuard.AsyncGuardedPayment.constructor | runcycles_ap2/guard.py:500-543 | a new guard holds nothing, has committed nothing and is not aborted |
| AsyncGuard.AsyncGuardedPayment.SetActualMicros | runcycles_ap2/guard.py:563-565 | as in the sync guard |
| AsyncGuard.AsyncGuardedPayment.AttachReceiptFields | runcycles_ap2/guard.py:567-569 | as in the sync guard |
| AsyncGuard.AsyncGuardedPayment.AbortPayment | runcycles_ap2/guard.py:571-573 | as in the sync guard |
| AsyncGuard.AsyncGuardedPayment.Enter | runcycles_ap2/guard.py:577-644 | state, call and outcome of entering are those of the lifecycle; a cancelled reserve escapes raw |
| AsyncGuard.AsyncGuardedPayment.ExitWith | runcycles_ap2/guard.py:646-671 | state, calls and outcome of leaving are those of the lifecycle; a cancelled release escapes raw |
| AsyncGuard.AsyncGuardedPayment.HandleCommit | runcycles_ap2/guard.py:675-788 | as in the sync guard, and a cancelled commit is commit-uncertain without a release |
| AsyncGuard.AsyncGuardedPayment.HandleRelease | runcycles_ap2/guard.py:790-820 | as in the sync guard, with cancellation not caught |
| AsyncGuard.AsyncGuardedPayment.BuildReceipt | runcycles_ap2/guard.py:822-845 | as in the sync guard |
| Drivers.RunSync | runcycles_ap2/guard.py:34-408 | constructing, entering, running any body on and leaving the sync guard is one lifecycle run |
| Drivers.RunAsync | runcycles_ap2/guard.py:467-845 | the same for the async guard, cancellations included |
| Drivers.InLockstep | runcycles_ap2/guard.py:451-465 | on every cancellation-free environment both guards make the same calls with the same bodies and end in the same state and outcome |
| GuardRuns.VerdictMeans | runcycles_ap2/guard.py:249-348 | a commit counts as settled exactly on success and as explicitly rejected exactly on a response outside success, transport, 5xx and the three terminal codes; everything else is uncertain under the code of the response, or without one under the code of what went wrong, and with the request id of the response |
| GuardRuns.EntryEscapesIff | runcycles_ap2/guard.py:157-169 | entering lets an exception or a cancellation escape exactly if the request was made and the client raised, the call was cancelled, or the success body does not validate |
| GuardRuns.EntryDeniedIff | runcycles_ap2/guard.py:157-202 | entering is denied exactly if the request was made and the answer is no success, a deny, or, but for a dry run, a decision without reservation |
| GuardRuns.EntryTells | runcycles_ap2/guard.py:140-211 | what the outcome of entering carries: the fault of the mandate, the server's reason and request id, the name of the exception that escapes, or decision, reason and policy details of a dry run |
| GuardRuns.CallLanguage | runcycles_ap2/guard.py:140-385 | every use makes exactly one of five call sequences, on the granted reservation, and which one is decided by mandate, grant, body and commit verdict; a release follows a commit only after an explicit rejection; dry runs and denials stop at reserve and never run the body |
| GuardRuns.NoReleaseBesideOpenCommit | runcycles_ap2/guard.py:236-348 | no use of either guard sends a release beside a commit that was not explicitly rejected |
| GuardRuns.NoSilentLoss | runcycles_ap2/guard.py:213-385 | a quiet end means committed or aborted; otherwise the exception is commit-uncertain with no release sent and the code and request id that the reply calls for, or commit-failed with those of the response, a release attempted, `released` true exactly when acknowledged and the release error that its reply calls for; a cancelled release alone escapes raw; committed is true exactly on a clean unaborted body and a success reply |
| GuardRuns.NoBuildFailureAfterBody | runcycles_ap2/mapping.py:251-254 | once reserve was sent no body can make the commit unbuildable, and its amount lies in 0 to 2^63-1 |
| GuardRuns.CommitCarriesHistory | runcycles_ap2/guard.py:120-248 | the commit carries the commit key, the last accepted amount, else the mandate's, in micro-cents, and for each key the last attached value; any abort or exception replaces it by a release |
| GuardRuns.BodyHistory | runcycles_ap2/guard.py:120-136 | the state after any sequence of setter calls: last accepted amount, last attached value per key, rejected amounts without trace |
| GuardRuns.AbortHistory | runcycles_ap2/guard.py:134-136 | the guard is aborted exactly when some call in the body aborted it |
| GuardRuns.AbortIsLast | runcycles_ap2/guard.py:134-136 | the reason kept is that of the last abort, cut to 256 characters |
| GuardRuns.ReleaseSays | runcycles_ap2/guard.py:213-232 | every release says why in reason and key: the exception of the body before all, else the last abort, else the code of the rejected commit; the reason has at most 256 characters |
| GuardRuns.ReceiptAgrees | runcycles_ap2/guard.py:260-269 | a receipt exists exactly when committed and wanted; transaction, payee, currency, checkout hash and action are those of the reserve request of the run, tenant and agent those of the guard, the decision the one heard; amount and reservation are those of the commit sent; the metadata sent can be rebuilt from it exactly when `psp_ref` is absent or a string |
| GuardRuns.RebuildsMetadata | runcycles_ap2/guard.py:392-394 | splitting off `psp_ref` loses nothing exactly when it is absent or a string |
| GuardRuns.CancelledCommitActsAsRaised | runcycles_ap2/guard.py:684-713 | a cancelled commit ends like a raised one except for the code `COMMIT_CANCELLED` |
| WorstCase.SafeUse | runcycles_ap2/guard.py:213-348 | against a server that applies requests at any time and lets a release reverse a settlement, no interleaving settles and gives back, exactly if the use does not release after a rejected commit or the rejection guarantees that the commit had no effect |
| WorstCase.SafeIffRejectionsAreInert | runcycles_ap2/guard.py:320-348 | all uses of a guard are safe against such a server exactly if every reply that the guard takes for an explicit rejection guarantees that the commit had no effect |
| WorstCase.DocumentedClass | runcycles_ap2/exceptions.py:105-108 | the replies after which the guard releases are the documented 4xx with another code, and apart from these the responses without code or outside 4xx |
| WorstCase.DocumentedRuleIsNotEnough | runcycles_ap2/exceptions.py:105-108 | with the documented class alone a 408 without code leads to a release that may undo an applied commit |
| WorstCase.SafeUnderDocumentedRule | runcycles_ap2/guard.py:280-348 | under the documented class a use is safe exactly if it does not come to a release after an undocumented rejection |
| Reuse.EntryIgnoresLeftOvers | runcycles_ap2/guard.py:140-211 | whether a used guard enters, and its reserve request, depend on the reply alone; amount, metadata, abort and commit flag are carried over |
| Reuse.UseKeepsLeftOver | runcycles_ap2/guard.py:140-385 | every use, whatever happens in it, leaves the fields as the statements about a further use require, so these hold of every use in a row |
| Reuse.ReportsAfterReuse | runcycles_ap2/guard.py:94-118 | commit flag, receipt, reservation and decision after a further use, for every start: `committed` is true exactly if it was or this use was granted, returned, was never aborted and succeeded; the receipt is this use's exactly if it committed and receipts are wanted; the others are this use's if it was answered |
| Reuse.StaleCommitIff | runcycles_ap2/guard.py:116-118 | in every environment `committed` means that this very use committed exactly if it was false before |
| Reuse.StaleReceiptIff | runcycles_ap2/guard.py:112-114 | in every environment a receipt means that this very use committed exactly if there was none before |
| Reuse.StaleReservationIff | runcycles_ap2/guard.py:104-106 | in every environment a reservation shown is the one granted to this use exactly if none was held before |
| Reuse.StaleDecisionIff | runcycles_ap2/guard.py:108-110 | in every environment a decision shown is the answer to this use exactly if there was none before |
| Reuse.ReuseIsLikeNewIff | runcycles_ap2/guard.py:94-100 | a used guard makes the requests and has the outcomes of a new one in every environment exactly if it can never enter, or no abort, no metadata and no amount but the mandate's is left behind |
| GuardRuns.RequestsNameTheirBucket | runcycles_ap2/mapping.py:70-93 | every request of a run has a key of at most 122 characters from which its own phase, and scope and digest of its own open mandate or transaction, can be read |
| Server.ReserveKeeps | README.md:158-163 | under the replay and mismatch rules the reserve cache and the reservations stay in one-to-one correspondence, and a grant is on file for exactly the request made |
| Server.CommitKeeps | runcycles_ap2/exceptions.py:62-68 | a commit is acknowledged only if the reservation is settled by that very commit, and then for good |
| Server.ReleaseKeeps | runcycles_ap2/exceptions.py:62-68 | a release is acknowledged only if the reservation is released, and then for good |
| Server.ExpiryKeeps | runcycles_ap2/exceptions.py:64-66 | expiry turns an active reservation into an expired one, leaves every other one and the ledger alone, and keeps the server's invariant |
| Server.TotalIsOneCommit | README.md:158-163 | all that was ever settled for a bucket is the amount of the one commit that settled its reservation, or nothing |
| Parties.MoveIsLocal | runcycles_ap2/guard.py:140-385 | every move of a guard in the protocol continues one lifecycle run |
| Parties.MoveIsHonest | runcycles_ap2/guard.py:213-385 | a guard takes a reservation only from a grant, reports a commit only on a success and a release only on an acknowledgement |
| Interleavings.Reachable | runcycles_ap2/guard.py:140-385 | the invariant that ties every guard to the server holds in every world any run of any guards can reach |
| Verdicts.SharesBucketMeans | runcycles_ap2/mapping.py:46-67 | barring a hash collision, guards share a bucket exactly when one tenant presents the same open mandate, or the same transaction without one |
| Verdicts.OneReservationPerBucket | runcycles_ap2/mapping.py:46-93 | in every run the server holds at most one reservation per bucket |
| Verdicts.ConsumeOnce | runcycles_ap2/mapping.py:46-93 | all guards of a bucket whose bodies ran hold the same reservation and sent identical reserve bodies |
| Verdicts.OnePaymentPerBucket | README.md:158-163 | of two guards in one bucket with different transactions, payees, runs, currencies, effective checkout hashes or amounts at most one runs its body |
| Verdicts.OneTransactionPerOpenMandate | README.md:153-163 | the same of two guards of one tenant with the same open mandate, whatever the hash does |
| Verdicts.OnePaymentPerTransaction | README.md:153-163 | the same of two guards of one tenant with the same transaction and no open mandates |
| Verdicts.ReportsAreTrue | runcycles_ap2/guard.py:260-261 | a guard that reports committed has its reservation settled by the very commit it sent; a release reported or acknowledged means the reservation is released |
| Verdicts.ExclusiveVerdicts | runcycles_ap2/guard.py:213-385 | in one bucket a committed guard excludes every acknowledged or reported release, and all committed guards sent the same commit for the same reservation |
| Verdicts.SettledOnce | runcycles_ap2/guard.py:236-261 | what was settled for the bucket of a committed guard is exactly the amount it committed; nothing was settled for a bucket whose reservation is not settled |
| Verdicts.VerdictsAreFinal | runcycles_ap2/guard.py:213-385 | however a run goes on, a settled reservation stays settled by the same commit, and after a release or expiry no guard of the bucket ever reports a commit |
| Verdicts.EveryGuardRunsOnce | runcycles_ap2/guard.py:140-385 | every guard that is through has made one lifecycle run, so the single-guard theorems apply inside the protocol |
| Embedding.EveryUseHappens | runcycles_ap2/guard.py:140-385 | conversely every use of a guard, with any body and any replies, is made in some run of the protocol beside any other guards |
| Embedding.ChargeMayExpireIff | runcycles_ap2/exceptions.py:64-66 | a reservation may expire while the body runs, so that the commit ends in commit-uncertain with `RESERVATION_EXPIRED`: in some run exactly if the reserve body can be built |
| Provenance.NothingUnasked | runcycles_ap2/guard.py:140-385 | every reservation on file was requested by a guard of its bucket in those words, every settled one is settled by a commit such a guard sent for it, every released one was to be released by such a guard |
| Provenance.NoMoneyWithoutCommit | runcycles_ap2/guard.py:213-248 | nothing is settled for a bucket whose guards were all refused, raised, aborted or are not on their way out |
| Provenance.NoBudgetStranded | runcycles_ap2/guard.py:213-385 | as long as a reservation is active, some guard of its bucket that asked for it is under way, was turned away after asking, or got no success for its last request; no guard of the bucket has left with its last request acknowledged |
| Provenance.StrandingIsTold | runcycles_ap2/guard.py:213-385 | a guard that got no success for its last request, with a body that returned unaborted, ends in commit-uncertain, in commit-failed with `released` false, or in the cancellation |
| Replays.BodyMayRunTwice | README.md:158-163 | an identical replay lets a second guard run its body on the same reservation |
| Replays.OneReservationForTwoIff | README.md:158-163 | two bodies run on one reservation in some run exactly if tenant and reserve body of the two guards are the same |
| Replays.BucketRunsTwiceIff | README.md:158-163 | of two guards in one bucket both bodies run in some run exactly if their reserve bodies can be built and are equal |
| Replays.CommitMayMeetRelease | runcycles_ap2/guard.py:224-232 | two replaying guards may have a commit and a release of one active reservation under way at once, so their exclusion rests on the server's terminal codes |
| Replays.CommitMeetsReleaseIff | runcycles_ap2/guard.py:224-232 | that happens in some run exactly if tenant and reserve body of the two guards are the same |
| Replays.PaymentGoesThrough | runcycles_ap2/guard.py:140-261 | a run in which a guard reports a commit, its reservation is settled and exactly the mandate's amount is paid for its bucket |
| Replays.CommitsIff | runcycles_ap2/guard.py:140-261 | a guard reports a commit in some run exactly if its reserve body can be built |

## Left out

- Parsing of `amount_value` by Python's `Decimal`, and pydantic's field checks: the model starts from the parsed tuple.
- The HTTP client, response classes and the server itself, which are not in the repository: replies are arbitrary, the server is the rules above.
- Eviction from the server's idempotency caches: nothing in the repository speaks of it, and the cached entries are kept for ever here.
- Dry runs among several guards: how the server caches a probe that shares the reserve key is not known. Single-guard theorems cover them.
- `BaseException`s other than asyncio cancellation, such as `KeyboardInterrupt` during a call: the code does not wrap them.
- Aliasing of dictionaries: the caller's metadata and the guard's commit metadata are passed on without a copy; bodies hold values here.
- `from_ap2`, `build_action`, `build_receipt_policy_keys` and `build_estimate` on their own: construction without branching that matters here; their results appear in the bodies and receipts.
- Message texts, logging, and the receipt's schema name and issue time.
- Budgets, caps and overage policy: decided by the server alone.
- Guards that are entered more than once in the protocol: a guard is single-use, see `Reuse.ReuseIsLikeNewIff` for what a second use carries over.
