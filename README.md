# Inheritance-owner wizard: amount reconciler, validator and page gate

A Dafny model of the state store behind the owner side of a time-locked
Bitcoin "inheritance" contract wizard (`src/store/modules/inheritanceOwner.js`),
and of the lock-countdown helper `src/helpers/timeDiff.js`.

The store holds one contract snapshot (`contractValues`), an issue report
(`issues`), four wizard pages with `valid`/`usable` flags, and the selected page.
The action `changeContractValues` applies an edit to the contract values: it merges the edit,
sums the selected UTXOs, and splits the inputs into fee, destination amount and
change. It then builds a draft transaction, splits again with the built size,
builds again, and finally re-validates every page.

Files and modules:

- `wrappers.dfy` (`Wrappers`): `Option`, the model's `undefined`.
- `contract.dfy` (`ContractModel`): the snapshot record. It also holds the
  `setContractValues` payload (`Patch`, one optional value per key) and the
  shallow merge `{ ...c, ...p }`.
- `reconciler.dfy` (`Reconciler`): the pure arithmetic of `deriveSpendingInfo`
  and `deriveFromLastData`.
- `validator.dfy` (`Validator`): the pure checks of `updateStatus`, the issue
  report, the page-3 messages and the page gating.
- `owner_store.dfy` (`OwnerStore`): the store as a class. The pages are an
  `array` updated in place. The mutations and actions are methods, each proved
  against the functions above.
- `time_diff.dfy` (`TimeDiff`): `timeDiff` with the current time passed in as
  `now`.

Representation choices:

- Money is whole satoshis. A derived monetary field is written by `toFixed(8)`;
  the model holds the number of satoshis that string denotes.
- The fee rate is an exact fraction `num/den`. `Math.ceil(vSize * feeRate + 1e-8)`
  is evaluated exactly: the least integer at or above `vSize * feeRate + 10^-8`.
- `selectedUTXO` is the list of (key, value) entries in `Object.keys` order. A
  value `parseFloat` cannot read is `None`.
- The external classifiers `whatWIF` and `whatAddress` are function parameters.
  Each returns `Some(network)` when it recognises its input and `None`
  otherwise. The transaction builder `ownerTx` is also a parameter.
- A built transaction is represented by its virtual size only.

Consequences of the code that the model makes explicit:

- The `+ 1e-8` before the ceiling makes a whole product pay one satoshi more:
  150 vB at 1.000 sat/vB costs 151 sat (`MinFeeExample`, `MinFeeWholeProduct`).
  `AllocateScenarios` proves the splits that follow from it.
- Page 1 checks `contract.relativeLockTime` (line 215). That is not a declared
  field of the initial state, so it is blank until a payload sets it. The
  declared `daysLocked` is not checked.
- `updateStatus` throws at line 240 when a selected key has no `-`.
  `UpdateStatus` returns `ok = false` in that case, after the page-1 commits and
  before any page-3 or page commit.
- A pass that does not throw writes every issue key, so no entry from an earlier
  pass survives it (`StatusIssuesFresh`). A pass that throws at line 240 leaves
  `page3` and the four page flags as the previous pass set them (the `!ok`
  clauses of `UpdateStatus`).
- In exact arithmetic `fee + target + change` equals the inputs on both
  branches of the split at lines 153-159.
- With spending off, `deriveSpendingInfo` sets the destination amount to 0 and
  turns change on. After the full cycle of `changeContractValues`, the
  destination absorbs the shortfall when the inputs do not cover the fee
  (`PreparedNotSpending`).

## Model

| member | source | states |
|---|---|---|
| ContractModel.MergeNoChange | src/store/modules/inheritanceOwner.js:86-88 | committing an empty payload leaves the snapshot as it was |
| ContractModel.MergeIdempotent | src/store/modules/inheritanceOwner.js:86-88 | committing the same payload twice equals committing it once |
| ContractModel.MergeThen | src/store/modules/inheritanceOwner.js:86-88 | two successive commits equal one commit of the combined payload, later keys winning |
| Reconciler.SumOfUtxo | src/store/modules/inheritanceOwner.js:120-124 | the left-to-right total of the selected values; a selection of non-negative values has a non-negative total |
| Reconciler.SumOfUtxoAppend | src/store/modules/inheritanceOwner.js:120-124 | the input sum of a concatenation is the sum of the parts |
| Reconciler.SumOfUtxoOrderFree | src/store/modules/inheritanceOwner.js:120-124 | any reordering of the selected entries gives the same input total |
| Reconciler.SumOfUtxoSkipsUnreadable | src/store/modules/inheritanceOwner.js:122 | inserting an entry whose value cannot be parsed anywhere in the selection leaves the total unchanged |
| Reconciler.SpendingInfo | src/store/modules/inheritanceOwner.js:116-140 | sumOfUTXO is the sum of the selected values; changeAddress equals address; without spending toAmount is 0 and change is on, with spending both are kept; no other field changes |
| Reconciler.SpendingInfoIdempotent | src/store/modules/inheritanceOwner.js:116-140 | deriving the spending information twice equals deriving it once |
| Reconciler.MinFee | src/store/modules/inheritanceOwner.js:149 | the fee is the least integer at or above vSize*feeRate + 1e-8 |
| Reconciler.MinFeeExceedsProduct | src/store/modules/inheritanceOwner.js:149 | the fee is strictly greater than vSize*feeRate |
| Reconciler.MinFeeAtMostOneOver | src/store/modules/inheritanceOwner.js:149 | for a rate with at most 8 decimals the fee is at most vSize*feeRate + 1 |
| Reconciler.MinFeeWholeProduct | src/store/modules/inheritanceOwner.js:149 | when vSize*feeRate is whole the fee is exactly that product plus 1, for any rate |
| Reconciler.MinFeeExample | src/store/modules/inheritanceOwner.js:149 | 150 vB at 1.000 sat/vB costs 151 sat |
| Reconciler.Allocate | src/store/modules/inheritanceOwner.js:150-159 | fee + target + change equals the inputs; change is never negative; if nothing remains, change is off or the target is negative, then the target becomes inputs - fee and change is 0; otherwise the target is kept and change is positive |
| Reconciler.AllocateIdempotent | src/store/modules/inheritanceOwner.js:153-167 | re-running the split on its own target and derived change flag returns the same split |
| Reconciler.AllocateScenarios | src/store/modules/inheritanceOwner.js:149-168 | 100000 sat in: asking 50000 leaves 49849 change; asking 99900 folds the shortfall into a target of 99849 with no change |
| Reconciler.FromLastData | src/store/modules/inheritanceOwner.js:142-169 | vSize is the built transaction's virtual size when there is one, else the stored vSize; feeAmount is MinFee of that size and the fee rate; target and change are Allocate of sumOfUTXO, that fee, toAmount and the change flag, so fee + toAmount + changeAmount equals sumOfUTXO, the fee exceeds vSize*feeRate, changeAmount is not negative, change holds iff changeAmount is not 0, a zero change means the destination took inputs - fee and a non-zero change means the target was kept; only the five derived fields change |
| Reconciler.FromLastDataIdempotent | src/store/modules/inheritanceOwner.js:142-169 | for a fixed transaction, rate and input total, a second derivation changes nothing |
| Validator.AddressTypeOf | src/store/modules/inheritanceOwner.js:204-212 | p2sh iff the address starts with 3 or 2; p2wsh iff it starts with bc or tb; unset otherwise |
| Validator.NetworkChoice | src/store/modules/inheritanceOwner.js:195-202 | networkChoice is non-empty iff both networks are known and equal, and then it is that network |
| Validator.Page1Valid | src/store/modules/inheritanceOwner.js:180-228 | page 1 is valid iff the key network is known and equals the address network, relativeLockTime is not blank and scriptHex is not blank |
| Validator.Page1Issues | src/store/modules/inheritanceOwner.js:180-219 | the page-1 commits add the five check keys and the two info keys; ownerPrivateKeyWIF and address flag an unknown network, addressNetwork flags differing networks, relativeLockTime and scriptHex flag a blank field; the info keys hold the two networks; every other entry (page3) keeps its value; page 1 is valid iff every check key is Flag(false) |
| Validator.Split | src/store/modules/inheritanceOwner.js:237-238 | splitting on '-' yields at least one piece and no piece holds a '-' |
| Validator.JoinSplit | src/store/modules/inheritanceOwner.js:237-238 | joining the pieces with '-' gives the key back |
| Validator.SplitHasVout | src/store/modules/inheritanceOwner.js:238-240 | the vout piece exists (so reading its length does not throw) iff the key holds a '-' |
| Validator.ValuesDone | src/store/modules/inheritanceOwner.js:235-243 | the fold is true iff every key has a non-empty txid and a non-empty vout |
| Validator.Page2Valid | src/store/modules/inheritanceOwner.js:233-245 | page 2 is valid iff the input total is positive and every key has a non-empty txid and a non-empty vout |
| Validator.Page2EmptySelection | src/store/modules/inheritanceOwner.js:233-245 | with no UTXO selected page 2 is invalid |
| Validator.Page3Valid | src/store/modules/inheritanceOwner.js:247-267 | page 3 is valid iff (when spending) the destination is non-blank and classified, some output is positive, the fee rate is at least 1 and a transaction is built |
| Validator.Page3IgnoresDestination | src/store/modules/inheritanceOwner.js:260-267 | without spending, page-3 validity does not depend on the destination address or its classifier |
| Validator.Page3Messages | src/store/modules/inheritanceOwner.js:269-288 | each of the five message keys is present exactly when its failing condition holds; enoughForFee and isToAmountEnough are never both present; no other key appears |
| Validator.Page3ValidSilencesErrors | src/store/modules/inheritanceOwner.js:259-288 | on a valid page 3 only the two warning keys (isNetworkMatch, isToAmountEnough) can remain |
| Validator.Page3MessagesAsWritten | src/store/modules/inheritanceOwner.js:256-277 | the network message appears iff spending, a destination is given and its network differs from the networkChoice held before this pass |
| Validator.Page3MessagesFresh | src/store/modules/inheritanceOwner.js:195-277 | the network message appears iff spending, a destination is given and its network differs from the networkChoice derived in this pass |
| Validator.FreshNetworkMessage | src/store/modules/inheritanceOwner.js:195-277 | with the fresh comparison, a destination on the page-1 network draws no network message |
| Validator.StaleNetworkMessage | src/store/modules/inheritanceOwner.js:177-277 | on a first pass with matching testnet key, address and destination, the as-written messages contain isNetworkMatch and the fresh ones do not |
| Validator.Gate | src/store/modules/inheritanceOwner.js:290-310 | page 1 is always usable, page 4 always valid, and page k is usable iff page k-1 is valid in the same pass |
| Validator.StatusIssues | src/store/modules/inheritanceOwner.js:176-288 | after a pass every issue key is present, the page-1 entries are those of Page1Issues and page3 holds the messages compared against the networkChoice derived in the same pass |
| Validator.StatusIssuesFresh | src/store/modules/inheritanceOwner.js:176-288 | the report after a pass is the same whatever report preceded it |
| OwnerStore.WithFlags | src/store/modules/inheritanceOwner.js:76-78 | pages keep their titles and take the given valid/usable flags |
| OwnerStore.Prepared | src/store/modules/inheritanceOwner.js:97-110 | after derive-build-derive-build: the fee is MinFee of the first build's size; the final tx is built from the final amounts; fee + toAmount + changeAmount equals sumOfUTXO, which is the sum of the selection; changeAddress equals address; change holds iff changeAmount is non-zero; change remains exactly when spending kept change, the requested amount is non-negative, and the inputs exceed the requested amount plus the fee for the size before the first build and also plus the final fee; while change remains the destination keeps the amount the spending derivation gave it, and without change it takes inputs - fee; every other field is the merged payload's |
| OwnerStore.PreparedNotSpending | src/store/modules/inheritanceOwner.js:97-140 | without spending, either toAmount is 0 and everything after the fee is change, or there is no change and toAmount is inputs - fee; when the inputs do not exceed the fee it is the latter |
| OwnerStore.Store.constructor | src/store/modules/inheritanceOwner.js:5-50 | the initial pages, page 1 selected, the default contract values, an empty report |
| OwnerStore.Store.SetPageStatus | src/store/modules/inheritanceOwner.js:76-79 | only the given page's valid and usable flags change |
| OwnerStore.Store.SetPage | src/store/modules/inheritanceOwner.js:81-85 | pageSelected ends as the new page |
| OwnerStore.Store.SetContractValues | src/store/modules/inheritanceOwner.js:86-88 | the snapshot becomes the merge of the old one with the payload |
| OwnerStore.Store.SetIssues | src/store/modules/inheritanceOwner.js:89-91 | the report becomes the old report overridden by the payload |
| OwnerStore.Store.ChangePage | src/store/modules/inheritanceOwner.js:314-321 | pageSelected becomes n iff page n exists and is usable, otherwise it is unchanged |
| OwnerStore.Store.DeriveSpendingInfo | src/store/modules/inheritanceOwner.js:116-140 | the snapshot becomes SpendingInfo of the old one |
| OwnerStore.Store.DeriveFromLastData | src/store/modules/inheritanceOwner.js:142-169 | the snapshot becomes FromLastData of the old one: vSize is the built size (else the stored one), the fee is MinFee of it, and fee + toAmount + changeAmount equals sumOfUTXO |
| OwnerStore.Store.UpdateStatus | src/store/modules/inheritanceOwner.js:176-311 | networkChoice and addressType are derived; ok iff every key holds a '-'; if not, only the page-1 issues are committed; if so, the full report and the gated page flags (network message taken against the fresh networkChoice) |
| OwnerStore.Store.CheckPage1 | src/store/modules/inheritanceOwner.js:180-228 | returns page-1 validity and networkChoice, commits them with addressType, and applies the page-1 issue commits |
| OwnerStore.Store.CheckNetworks | src/store/modules/inheritanceOwner.js:180-197 | returns the key and address networks and commits their flags and info entries, then the match flag |
| OwnerStore.Store.CheckLockAndScript | src/store/modules/inheritanceOwner.js:214-219 | commits the relativeLockTime and scriptHex blank flags |
| OwnerStore.Store.FinishStatus | src/store/modules/inheritanceOwner.js:230-310 | page3 is replaced wholesale by the messages compared against the networkChoice derived in the same pass, and the four pages get the gated flags |
| OwnerStore.Store.SetPages | src/store/modules/inheritanceOwner.js:290-310 | the four pages take the Gate flags: page 1 always usable, page 4 always valid, page k usable iff page k-1 valid |
| OwnerStore.Store.ChangeContractValues | src/store/modules/inheritanceOwner.js:97-113 | the snapshot becomes Prepared with the status fields; fee + toAmount + changeAmount equals sumOfUTXO, the sum of the selection; changeAddress equals address; on success the report is StatusIssues of the prepared snapshot and the pages take the Gate of its page-1, page-2 and page-3 validity; on a throw only the page-1 issues change and the pages keep their flags |
| TimeDiff.SplitDiff | src/helpers/timeDiff.js:5-9 | h is in [0,23], m in [0,59], and d*day + h*hour + m*min <= diff < d*day + h*hour + (m+1)*min |
| TimeDiff.TimeDiff | src/helpers/timeDiff.js:1-16 | unlocked iff now - (inTimeStamp + daysLocked*86400000) > 0 |
| TimeDiff.Phrases | src/helpers/timeDiff.js:10-13 | dh is the unsigned day count, " days ", the unsigned hour count, " hours " and the word ("ago" when unlocked, "left" otherwise); dhm is dh with the unsigned minute count and " min " inserted before the word |
| TimeDiff.TimeDiffPhrases | src/helpers/timeDiff.js:10-13 | the timeDiff phrases end in "ago" when unlocked and "left" otherwise, and dh is dhm without the minutes segment |
| TimeDiff.TimeDiffOneMsBefore | src/helpers/timeDiff.js:2-13 | 1 ms before unlocking the result is "1 days 23 hours 59 min left" / "1 days 23 hours left", not unlocked |
| TimeDiff.TimeDiffOneHourBefore | src/helpers/timeDiff.js:2-13 | 1 hour before unlocking the long phrase is "1 days 23 hours 0 min left" |
| TimeDiff.SplitMagnitude | src/helpers/timeDiff.js:5-9 | d, h, m are the whole days, hours and minutes of abs(diff): h in [0,23], m in [0,59], d*day + h*hour + m*min <= abs(diff) < that + one minute |
| TimeDiff.TimeDiffCorrected | src/helpers/timeDiff.js:1-16 | unlocked iff now - (inTimeStamp + daysLocked*86400000) > 0, exactly as in the source |
| TimeDiff.TimeDiffCorrectedPhrases | src/helpers/timeDiff.js:5-13 | the corrected phrases print the whole days of the distance's magnitude, the whole hours left after the days and the whole minutes left after the hours, then "ago" or "left" |
| TimeDiff.MagnitudeParts | src/helpers/timeDiff.js:5-9 | the corrected split is the whole days, the remaining whole hours and the remaining whole minutes of abs(diff) |
| TimeDiff.CorrectedAgreesWhenUnlocked | src/helpers/timeDiff.js:5-13 | for a non-negative distance the corrected result equals the source's |
| TimeDiff.CorrectedOneHourBefore | src/helpers/timeDiff.js:5-13 | 1 hour before unlocking the corrected long phrase is "0 days 1 hours 0 min left" |

## Findings

| source | as written | input that shows it | evidently intended | confidence | as-written member | corrected member |
|---|---|---|---|---|---|---|
| src/helpers/timeDiff.js:5-9 | the days are floor-divided, so a negative distance rounds down a whole day and hours/minutes count forward from it | one hour before unlocking: "1 days 23 hours 0 min left" | "0 days 1 hours 0 min left" (split the magnitude of the distance) | high, not executed | TimeDiff.TimeDiffOneHourBefore | TimeDiff.TimeDiffCorrected |
| src/store/modules/inheritanceOwner.js:257 | `contract` was read before line 200 replaced `contractValues`, so the destination is compared with the previous pass's networkChoice | first pass, networkChoice '', key, address and destination all testnet: message "Address appears invalid for " | compare with the networkChoice derived in the same pass | medium, not executed | Validator.StaleNetworkMessage | Validator.Page3MessagesFresh |

## Left out

- `setFile`, `changeFile`, the `file` field and the getters: plain storage and field reads.
- Vuex plumbing (`namespaced`, `commit`/`dispatch`, reactivity). Each commit is a method call.
- The "set to 0, then to the new page" step at line 83 is left out. It exists only so that watchers see a change. `SetPage` assigns the final value.
- The internals of `whatWIF`, `whatAddress`, `ownerTx` and `virtualSize()` are not modelled. The model assumes both classifiers return the same failure value (`None`). With that assumption, two unrecognised inputs count as matching networks, as `undefined === undefined` does.
- Binary floating point is not modelled: `parseFloat`, `toFixed(8)`, `1e8 * x`, the floating sum of UTXO values and the formatting round trip of amounts. Amounts are exact satoshis and the fee rate is an exact fraction.
- A blank or unreadable `feeRate` or `toAmount` (NaN in the source) is not modelled, because every field holds a parsed value.
- Validator.Page3Valid: the `isChangeAmountDone` and `isFeeRateDone` conjuncts test that a string is non-empty. Every modelled amount and rate stands for a non-empty string, so both are taken as true.
- OwnerStore.Store.UpdateStatus: builds `page3` with the corrected network comparison (`Page3MessagesFresh`). The code at lines 257 and 276 compares with, and prints, the `networkChoice` read at line 177, before line 200 replaced it. That behaviour is modelled by `Validator.Page3MessagesAsWritten` and shown by `Validator.StaleNetworkMessage` (see Findings).
- OwnerStore.Store.FinishStatus: uses the corrected comparison for the same reason.
- Validator.StatusIssues: its `page3` entry is the corrected map, not the one lines 256-277 build from the earlier `networkChoice`.
- OwnerStore.Store.ChangeContractValues: its report inherits the corrected comparison from `UpdateStatus`.
- The throw at line 240 is modelled as `ok = false`. Its propagation to the caller of `changeContractValues` is not modelled.
- The issue report and the `page3` map use closed key enumerations. They hold only the keys the code writes. Key order in the objects is not modelled.
- Duplicate keys in `selectedUTXO` are not excluded. The sum and the checks do not depend on uniqueness.
- `Date.now()` and `new Date(...)` become the integer parameter `now`. `inTimeStamp` and `daysLocked` are integers, so a string `daysLocked` coerced by `*` is not modelled. The floating division in `timeDiff` is taken as exact floor division.
