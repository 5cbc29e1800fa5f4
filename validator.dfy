/**
 * The wizard validator of the inheritance-owner store (`updateStatus`): the
 * per-page checks, the derived `networkChoice` and `addressType`, the issue
 * report and the page-3 messages, as functions of one snapshot. The key and
 * address classifiers are parameters: `Some(network)` when they recognise their
 * input, `None` when they do not.
 */
module Validator {
  import opened Wrappers
  import opened ContractModel
  import opened Reconciler

  // ---------------------------------------------------------------- page 1

  /** `s.substring(0, n)`. */
  function Prefix(s: string, n: nat): (p: string)
    ensures |p| == if |s| < n then |s| else n
    ensures p <= s
  {
    if |s| < n then s else s[..n]
  }

  /** The address type from the address prefix; the four tests run in order and a later match wins. */
  function AddressTypeOf(address: string): (t: AddressType)
    ensures t == P2sh <==> |address| >= 1 && (address[0] == '3' || address[0] == '2')
    ensures t == P2wsh <==> |address| >= 2 && (address[..2] == "bc" || address[..2] == "tb")
  {
    var t := Unset;
    var t := if Prefix(address, 1) == "3" then P2sh else t;
    var t := if Prefix(address, 1) == "2" then P2sh else t;
    var t := if Prefix(address, 2) == "bc" then P2wsh else t;
    if Prefix(address, 2) == "tb" then P2wsh else t
  }

  /** `networkChoice`: the key's network when it is known and the address has the same one, else ''. */
  function NetworkChoice(keyNetwork: Option<Network>, addressNetwork: Option<Network>): (choice: string)
    ensures choice != "" <==> keyNetwork.Some? && addressNetwork.Some? && keyNetwork.value == addressNetwork.value
    ensures choice != "" ==> choice == keyNetwork.value == addressNetwork.value
  {
    var doNetworksMatch := keyNetwork == addressNetwork;
    if doNetworksMatch && keyNetwork.Some? then keyNetwork.value else ""
  }

  /** Page 1 is valid: both networks known and equal, a relative lock time, a script. */
  function Page1Valid(c: Contract, whatWIF: string -> Option<Network>, whatAddress: string -> Option<Network>): (ok: bool)
    ensures ok <==> && whatWIF(c.ownerPrivateKeyWIF).Some?
                    && whatWIF(c.ownerPrivateKeyWIF) == whatAddress(c.address)
                    && c.relativeLockTime != ""
                    && c.scriptHex != ""
  {
    var keyNetwork := whatWIF(c.ownerPrivateKeyWIF);
    var addressNetwork := whatAddress(c.address);
    var doNetworksMatch := keyNetwork == addressNetwork;
    keyNetwork.Some? && addressNetwork.Some? && doNetworksMatch
    && |c.relativeLockTime| > 0 && |c.scriptHex| > 0
  }

  /** The keys of the issue report. */
  datatype IssueKey =
    | OwnerPrivateKeyWIF | OwnerPrivateKeyWIFInfo | Address | AddressInfo | AddressNetwork
    | RelativeLockTime | ScriptHex | Page3

  /** One entry of the issue report. */
  datatype Issue = Flag(failed: bool) | Info(network: Option<Network>) | Messages(texts: map<Page3Key, string>)

  /** The five page-1 checks, by issue key. */
  const Page1Checks: set<IssueKey> :=
    {OwnerPrivateKeyWIF, Address, AddressNetwork, RelativeLockTime, ScriptHex}

  /** The report `o` after the three network commits of `updateStatus`. */
  function NetworkIssues(o: map<IssueKey, Issue>, keyNetwork: Option<Network>, addressNetwork: Option<Network>)
    : map<IssueKey, Issue>
  {
    o[OwnerPrivateKeyWIF := Flag(keyNetwork.None?)][OwnerPrivateKeyWIFInfo := Info(keyNetwork)]
     [Address := Flag(addressNetwork.None?)][AddressInfo := Info(addressNetwork)]
     [AddressNetwork := Flag(keyNetwork != addressNetwork)]
  }

  /** The report `o` after the lock-time and script commits of `updateStatus`. */
  function LockIssues(o: map<IssueKey, Issue>, c: Contract): map<IssueKey, Issue>
  {
    o[RelativeLockTime := Flag(|c.relativeLockTime| == 0)][ScriptHex := Flag(|c.scriptHex| == 0)]
  }

  /** The report `o` after the five page-1 `setIssues` commits of `updateStatus`. */
  function Page1Issues(o: map<IssueKey, Issue>, c: Contract,
                       whatWIF: string -> Option<Network>, whatAddress: string -> Option<Network>)
    : (r: map<IssueKey, Issue>)
    ensures r.Keys == o.Keys + Page1Checks + {OwnerPrivateKeyWIFInfo, AddressInfo}
    ensures r[OwnerPrivateKeyWIFInfo] == Info(whatWIF(c.ownerPrivateKeyWIF))
    ensures r[AddressInfo] == Info(whatAddress(c.address))
    ensures r[OwnerPrivateKeyWIF] == Flag(whatWIF(c.ownerPrivateKeyWIF).None?)
    ensures r[Address] == Flag(whatAddress(c.address).None?)
    ensures r[AddressNetwork] == Flag(whatWIF(c.ownerPrivateKeyWIF) != whatAddress(c.address))
    ensures r[RelativeLockTime] == Flag(c.relativeLockTime == "")
    ensures r[ScriptHex] == Flag(c.scriptHex == "")
    ensures forall k :: k in o && k !in Page1Checks + {OwnerPrivateKeyWIFInfo, AddressInfo} ==> r[k] == o[k]
    ensures Page1Valid(c, whatWIF, whatAddress) <==> forall k :: k in Page1Checks ==> r[k] == Flag(false)
  {
    LockIssues(NetworkIssues(o, whatWIF(c.ownerPrivateKeyWIF), whatAddress(c.address)), c)
  }

  // ---------------------------------------------------------------- page 2

  /** `s.split('-')`: the pieces between the dashes, at least one, none holding a dash. */
  function Split(s: string): (parts: seq<string>)
    ensures |parts| >= 1
    ensures forall j :: 0 <= j < |parts| ==> '-' !in parts[j]
    decreases |s|
  {
    if s == [] then [""]
    else
      var rest := Split(s[1..]);
      if s[0] == '-' then [""] + rest
      else [[s[0]] + rest[0]] + rest[1..]
  }

  /** The pieces glued back with dashes. */
  function Join(parts: seq<string>): string
    requires |parts| >= 1
  {
    if |parts| == 1 then parts[0] else parts[0] + "-" + Join(parts[1..])
  }

  /** Splitting loses nothing: gluing the pieces back gives the key. */
  lemma {:induction false} JoinSplit(s: string)
    ensures Join(Split(s)) == s
    decreases |s|
  {
    if s != [] {
      var rest := Split(s[1..]);
      JoinSplit(s[1..]);
      if s[0] == '-' {
        assert ([""] + rest)[1..] == rest;
      } else {
        var parts := [[s[0]] + rest[0]] + rest[1..];
        assert parts[1..] == rest[1..];
        if |rest| > 1 {
          assert Join(rest) == rest[0] + "-" + Join(rest[1..]);
        }
      }
    }
  }

  /** There is a second piece (`split('-')[1]` is defined) exactly when the key holds a dash. */
  lemma {:induction false} SplitHasVout(s: string)
    ensures |Split(s)| >= 2 <==> '-' in s
    decreases |s|
  {
    if s != [] {
      SplitHasVout(s[1..]);
      assert '-' in s <==> s[0] == '-' || '-' in s[1..] by {
        assert s == [s[0]] + s[1..];
      }
    }
  }

  /** `split('-')[1]` is `undefined` (and reading its length throws) unless the key holds a dash. */
  predicate KeySplittable(key: string)
  {
    |Split(key)| >= 2
  }

  /** No key of the selection makes the `reduce` at page 2 throw. */
  predicate KeysSplittable(utxos: seq<Utxo>)
  {
    forall i :: 0 <= i < |utxos| ==> KeySplittable(utxos[i].key)
  }

  /** One key is complete: a non-empty txid, a non-empty vout, a non-empty key. */
  predicate KeyDone(key: string)
    requires KeySplittable(key)
  {
    var txid := Split(key)[0];
    var vout := Split(key)[1];
    |txid| > 0 && |vout| > 0 && |key| > 0
  }

  /** The `reduce` at page 2: `acc && done(key)` over the keys, from `true`. */
  function ValuesDone(utxos: seq<Utxo>): (done: bool)
    requires KeysSplittable(utxos)
    ensures done <==> forall i :: 0 <= i < |utxos| ==> KeyDone(utxos[i].key)
  {
    if utxos == [] then true
    else ValuesDone(utxos[..|utxos| - 1]) && KeyDone(utxos[|utxos| - 1].key)
  }

  /** Page 2 is valid: every key complete and a positive input total. */
  function Page2Valid(c: Contract): (ok: bool)
    requires KeysSplittable(c.selectedUTXO)
    ensures ok <==> && c.sumOfUTXO > 0
                    && forall i :: 0 <= i < |c.selectedUTXO| ==>
                         var parts := Split(c.selectedUTXO[i].key); parts[0] != "" && parts[1] != ""
  {
    var enoughUTXO := c.sumOfUTXO > 0;
    ValuesDone(c.selectedUTXO) && enoughUTXO
  }

  /** Page 2 is invalid when nothing is selected, since the input total is then 0. */
  lemma Page2EmptySelection(c: Contract)
    requires c.selectedUTXO == [] && c.sumOfUTXO == SumOfUtxo(c.selectedUTXO)
    ensures !Page2Valid(c)
  {
  }

  // ---------------------------------------------------------------- page 3

  /** `parseFloat(feeRate) >= 1.0`. */
  predicate FeeRateEnough(rate: Rate)
  {
    rate.num >= rate.den
  }

  /**
   * Page 3 is valid. `isChangeAmountDone` and `isFeeRateDone` test that a string
   * is not empty; every amount and rate the model holds stands for a non-empty
   * string (a formatted '0.00000000' included), so both hold.
   */
  function Page3Valid(c: Contract, whatAddress: string -> Option<Network>): (ok: bool)
    ensures ok <==> && (c.spending ==> c.toAddress != "" && whatAddress(c.toAddress).Some?)
                    && (c.toAmount > 0 || c.changeAmount > 0)
                    && FeeRateEnough(c.feeRate)
                    && c.tx.Some?
  {
    var isToAddressDone := |c.toAddress| > 0;
    var isChangeAmountDone := true;
    var isFeeRateDone := true;
    var isToAmountEnough := c.toAmount > 0;
    var isChangeAmountEnough := c.changeAmount > 0;
    var isFeeRateEnough := FeeRateEnough(c.feeRate);
    var isTxReady := c.tx.Some?;
    var whichNetworkAddress := whatAddress(c.toAddress);
    && ((isToAddressDone && whichNetworkAddress.Some?) || !c.spending)
    && (isChangeAmountDone || !c.change)
    && isFeeRateDone
    && (isToAmountEnough || isChangeAmountEnough)
    && isFeeRateEnough
    && isTxReady
  }

  /** Without spending, neither the destination address nor its classification matters. */
  lemma Page3IgnoresDestination(c: Contract, a1: string, a2: string,
                                f: string -> Option<Network>, g: string -> Option<Network>)
    requires !c.spending
    ensures Page3Valid(c.(toAddress := a1), f) == Page3Valid(c.(toAddress := a2), g)
  {
  }

  /** The keys of the `page3` message map. */
  datatype Page3Key = IsToAddressDone | IsNetworkMatch | IsFeeRateEnough | EnoughForFee | IsToAmountEnough

  /**
   * The page-3 messages, each present exactly when its condition fails; `choice`
   * is the network the destination is compared with.
   */
  function Page3Messages(c: Contract, toNetwork: Option<Network>, choice: string): (r: map<Page3Key, string>)
    ensures IsToAddressDone in r <==> c.spending && c.toAddress == ""
    ensures IsNetworkMatch in r <==> c.spending && c.toAddress != "" && !(toNetwork.Some? && toNetwork.value == choice)
    ensures IsFeeRateEnough in r <==> !FeeRateEnough(c.feeRate)
    ensures EnoughForFee in r <==> c.spending && c.toAmount <= 0 && c.changeAmount <= 0
    ensures IsToAmountEnough in r <==> c.spending && c.toAmount <= 0 && c.changeAmount > 0
    ensures !(EnoughForFee in r && IsToAmountEnough in r)
    ensures r.Keys <= {IsToAddressDone, IsNetworkMatch, IsFeeRateEnough, EnoughForFee, IsToAmountEnough}
    ensures IsNetworkMatch in r ==> r[IsNetworkMatch] == "Address appears invalid for " + choice
  {
    Page3Guards(c, toNetwork, choice);
    map k | k in AllPage3Keys && Page3Fails(c, toNetwork, choice, k) :: Page3Text(k, choice)
  }

  const AllPage3Keys: set<Page3Key> :=
    {IsToAddressDone, IsNetworkMatch, IsFeeRateEnough, EnoughForFee, IsToAmountEnough}

  /** The guard of each conditional spread in the `page3` object. */
  predicate Page3Fails(c: Contract, toNetwork: Option<Network>, choice: string, k: Page3Key)
  {
    var isToAddressDone := |c.toAddress| > 0;
    var isToAmountEnough := c.toAmount > 0;
    var isChangeAmountEnough := c.changeAmount > 0;
    var isFeeRateEnough := FeeRateEnough(c.feeRate);
    var isNetworkMatch := toNetwork.Some? && toNetwork.value == choice;
    match k
    case IsToAddressDone => !isToAddressDone && c.spending
    case IsNetworkMatch => isToAddressDone && !isNetworkMatch && c.spending
    case IsFeeRateEnough => !isFeeRateEnough
    case EnoughForFee => c.spending && !isToAmountEnough && !isChangeAmountEnough
    case IsToAmountEnough => c.spending && !isToAmountEnough && isChangeAmountEnough
  }

  /** Each guard of `Page3Fails`, spelled out. */
  lemma Page3Guards(c: Contract, toNetwork: Option<Network>, choice: string)
    ensures Page3Fails(c, toNetwork, choice, IsToAddressDone) == (c.spending && c.toAddress == "")
    ensures Page3Fails(c, toNetwork, choice, IsNetworkMatch)
            == (c.spending && c.toAddress != "" && !(toNetwork.Some? && toNetwork.value == choice))
    ensures Page3Fails(c, toNetwork, choice, IsFeeRateEnough) == !FeeRateEnough(c.feeRate)
    ensures Page3Fails(c, toNetwork, choice, EnoughForFee) == (c.spending && c.toAmount <= 0 && c.changeAmount <= 0)
    ensures Page3Fails(c, toNetwork, choice, IsToAmountEnough) == (c.spending && c.toAmount <= 0 && c.changeAmount > 0)
  {
  }

  /** The message shown under each key. */
  function Page3Text(k: Page3Key, choice: string): string
  {
    match k
    case IsToAddressDone => "Address can't be blank"
    case IsNetworkMatch => "Address appears invalid for " + choice
    case IsFeeRateEnough => "Fee must be > 1 sat/vByte to be relayed by most nodes."
    case EnoughForFee => "Need Amount > 0. Insufficient funds after fee."
    case IsToAmountEnough => "Need Amount > 0. Maybe you want to only reset timer?"
  }

  /** A valid page 3 shows none of the blocking messages, only the two warnings can remain. */
  lemma Page3ValidSilencesErrors(c: Contract, whatAddress: string -> Option<Network>, choice: string)
    requires Page3Valid(c, whatAddress)
    ensures Page3Messages(c, whatAddress(c.toAddress), choice).Keys <= {IsNetworkMatch, IsToAmountEnough}
  {
  }

  /**
   * The page-3 messages as `updateStatus` computes them: the destination is
   * compared with the `networkChoice` of the snapshot read before this pass
   * committed the newly derived one.
   */
  function Page3MessagesAsWritten(c: Contract, whatAddress: string -> Option<Network>): (r: map<Page3Key, string>)
    ensures IsNetworkMatch in r <==>
              c.spending && c.toAddress != "" && whatAddress(c.toAddress) != Some(c.networkChoice)
  {
    Page3Messages(c, whatAddress(c.toAddress), c.networkChoice)
  }

  /** The page-3 messages with the destination compared against the network derived in the same pass. */
  function Page3MessagesFresh(c: Contract, whatWIF: string -> Option<Network>, whatAddress: string -> Option<Network>)
    : (r: map<Page3Key, string>)
    ensures IsNetworkMatch in r <==>
              c.spending && c.toAddress != "" &&
              whatAddress(c.toAddress) != Some(NetworkChoice(whatWIF(c.ownerPrivateKeyWIF), whatAddress(c.address)))
  {
    Page3Messages(c, whatAddress(c.toAddress), NetworkChoice(whatWIF(c.ownerPrivateKeyWIF), whatAddress(c.address)))
  }

  /** With the fresh comparison, a destination on the page-1 network never draws the network message. */
  lemma FreshNetworkMessage(c: Contract, whatWIF: string -> Option<Network>, whatAddress: string -> Option<Network>)
    requires Page1Valid(c, whatWIF, whatAddress)
    requires whatAddress(c.toAddress) == whatAddress(c.address)
    ensures IsNetworkMatch !in Page3MessagesFresh(c, whatWIF, whatAddress)
  {
  }

  /**
   * The stale comparison misfires: on the first pass (networkChoice still '') a
   * testnet key, address and destination get "Address appears invalid for ".
   */
  lemma StaleNetworkMessage()
    ensures var c := Initial.(ownerPrivateKeyWIF := "cKey", address := "tb1qLock", relativeLockTime := "1",
                              scriptHex := "00", toAddress := "tb1qDest");
            var classify := (s: string) => Some("testnet");
            && Page1Valid(c, classify, classify)
            && IsNetworkMatch in Page3MessagesAsWritten(c, classify)
            && IsNetworkMatch !in Page3MessagesFresh(c, classify, classify)
  {
    var c := Initial.(ownerPrivateKeyWIF := "cKey", address := "tb1qLock", relativeLockTime := "1",
                      scriptHex := "00", toAddress := "tb1qDest");
    var classify := (s: string) => Some("testnet");
    assert c.networkChoice == "";
    assert NetworkChoice(classify(c.ownerPrivateKeyWIF), classify(c.address)) == "testnet";
  }

  // ---------------------------------------------------------------- gating

  /** The valid/usable pair of one page. */
  datatype PageFlags = PageFlags(valid: bool, usable: bool)

  /** The four `setPageStatus` commits: each page usable when its predecessor is valid. */
  function Gate(page1: bool, page2: bool, page3: bool): (r: seq<PageFlags>)
    ensures |r| == 4
    ensures r[0].usable && r[3].valid
    ensures forall k :: 1 <= k < 4 ==> (r[k].usable <==> r[k - 1].valid)
    ensures r[0].valid == page1 && r[1].valid == page2 && r[2].valid == page3
  {
    [PageFlags(page1, true), PageFlags(page2, page1), PageFlags(page3, page2), PageFlags(true, page3)]
  }

  /** Every key the report can hold. */
  const AllIssueKeys: set<IssueKey> := Page1Checks + {OwnerPrivateKeyWIFInfo, AddressInfo, Page3}

  lemma AllIssueKeysComplete(k: IssueKey)
    ensures k in AllIssueKeys
  {
    match k
    case OwnerPrivateKeyWIF =>
    case OwnerPrivateKeyWIFInfo =>
    case Address =>
    case AddressInfo =>
    case AddressNetwork =>
    case RelativeLockTime =>
    case ScriptHex =>
    case Page3 =>
  }

  /** The report `o` after a whole pass: the page-1 commits, then `page3` replaced wholesale. */
  function StatusIssues(o: map<IssueKey, Issue>, c: Contract,
                        whatWIF: string -> Option<Network>, whatAddress: string -> Option<Network>)
    : (r: map<IssueKey, Issue>)
    ensures r.Keys == o.Keys + AllIssueKeys
    ensures r[Page3] == Messages(Page3MessagesFresh(c, whatWIF, whatAddress))
    ensures forall k :: k in r && k != Page3 ==> r[k] == Page1Issues(o, c, whatWIF, whatAddress)[k]
  {
    Page1Issues(o, c, whatWIF, whatAddress)[Page3 := Messages(Page3MessagesFresh(c, whatWIF, whatAddress))]
  }

  /**
   * A pass recomputes the whole report: whatever an earlier pass left behind,
   * the report afterwards is the same, so no stale entry lingers.
   */
  lemma StatusIssuesFresh(o1: map<IssueKey, Issue>, o2: map<IssueKey, Issue>, c: Contract,
                          whatWIF: string -> Option<Network>, whatAddress: string -> Option<Network>)
    ensures StatusIssues(o1, c, whatWIF, whatAddress) == StatusIssues(o2, c, whatWIF, whatAddress)
  {
    StatusIssuesFromEmpty(o1, c, whatWIF, whatAddress);
    StatusIssuesFromEmpty(o2, c, whatWIF, whatAddress);
  }

  /** The report after a pass equals the one the pass builds from an empty report. */
  lemma StatusIssuesFromEmpty(o: map<IssueKey, Issue>, c: Contract,
                              whatWIF: string -> Option<Network>, whatAddress: string -> Option<Network>)
    ensures StatusIssues(o, c, whatWIF, whatAddress) == StatusIssues(map[], c, whatWIF, whatAddress)
  {
    var r := StatusIssues(o, c, whatWIF, whatAddress);
    var e := StatusIssues(map[], c, whatWIF, whatAddress);
    KeysWithinAll(o.Keys);
    ReportsAgree(r, e);
  }

  /** No report holds a key outside `AllIssueKeys`. */
  lemma KeysWithinAll(ks: set<IssueKey>)
    ensures ks + AllIssueKeys == AllIssueKeys
  {
    forall k | k in ks
      ensures k in AllIssueKeys
    {
      AllIssueKeysComplete(k);
    }
  }

  /** Two reports that hold every key, with the same entry at each, are the same report. */
  lemma ReportsAgree(r: map<IssueKey, Issue>, e: map<IssueKey, Issue>)
    requires r.Keys == AllIssueKeys && e.Keys == AllIssueKeys
    requires r[OwnerPrivateKeyWIF] == e[OwnerPrivateKeyWIF] && r[OwnerPrivateKeyWIFInfo] == e[OwnerPrivateKeyWIFInfo]
    requires r[Address] == e[Address] && r[AddressInfo] == e[AddressInfo] && r[AddressNetwork] == e[AddressNetwork]
    requires r[RelativeLockTime] == e[RelativeLockTime] && r[ScriptHex] == e[ScriptHex] && r[Page3] == e[Page3]
    ensures r == e
  {
    forall k | k in r
      ensures r[k] == e[k]
    {
      match k
      case OwnerPrivateKeyWIF =>
      case OwnerPrivateKeyWIFInfo =>
      case Address =>
      case AddressInfo =>
      case AddressNetwork =>
      case RelativeLockTime =>
      case ScriptHex =>
      case Page3 =>
    }
  }
}
