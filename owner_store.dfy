/**
 * The inheritance-owner store: the four wizard pages, the selected page, the
 * contract snapshot and the issue report, updated in place by its mutations
 * and actions. The key/address classifiers and the transaction builder are
 * passed in by the caller.
 */
module OwnerStore {
  import opened Wrappers
  import opened ContractModel
  import opened Reconciler
  import opened Validator

  /** One entry of `pages`. */
  datatype Page = Page(pageTitle: string, valid: bool, usable: bool)

  const InitialPages: seq<Page> := [
    Page("Input backup", true, true),
    Page("From where", true, false),
    Page("To where", true, false),
    Page("Transaction", true, false)]

  /** The pages after a validation pass: titles kept, flags taken from `flags`. */
  function WithFlags(pages: seq<Page>, flags: seq<PageFlags>): (r: seq<Page>)
    requires |pages| == |flags|
    ensures |r| == |pages|
    ensures forall k :: 0 <= k < |r| ==>
              r[k].pageTitle == pages[k].pageTitle && r[k].valid == flags[k].valid && r[k].usable == flags[k].usable
  {
    seq(|pages|, k requires 0 <= k < |pages| => pages[k].(valid := flags[k].valid, usable := flags[k].usable))
  }

  /**
   * The snapshot after the derive/build steps of `changeContractValues`, before
   * the status pass: the fee is paid for the size of the first build, the final
   * transaction is built from the final amounts, change survives exactly when
   * both splits leave something over the requested amount, and only the derived
   * fields and `tx` differ from the merged payload.
   */
  function Prepared(c: Contract, payload: Patch, ownerTx: Contract -> Option<Tx>): (r: Contract)
    ensures r.feeAmount + r.toAmount + r.changeAmount == r.sumOfUTXO == SumOfUtxo(r.selectedUTXO)
    ensures r.changeAddress == r.address
    ensures r.changeAmount >= 0 && (r.change <==> r.changeAmount != 0)
    ensures r.feeAmount == MinFee(r.vSize, r.feeRate)
    ensures var s := SpendingInfo(Merge(c, payload)); r.changeAmount != 0 ==> r.toAmount == s.toAmount
    ensures r.changeAmount == 0 ==> r.toAmount == r.sumOfUTXO - r.feeAmount
    ensures var s := SpendingInfo(Merge(c, payload));
            r.changeAmount != 0 <==> && s.change && s.toAmount >= 0
                                     && r.sumOfUTXO - MinFee(SizeFor(s), r.feeRate) - s.toAmount > 0
                                     && r.sumOfUTXO - r.feeAmount - s.toAmount > 0
    ensures var c1 := FromLastData(SpendingInfo(Merge(c, payload)));
            && r.vSize == SizeFor(c1.(tx := ownerTx(c1)))
            && r.tx == ownerTx(r.(tx := ownerTx(c1)))
    ensures var m := Merge(c, payload);
            r.(sumOfUTXO := m.sumOfUTXO, changeAddress := m.changeAddress, toAmount := m.toAmount,
               change := m.change, vSize := m.vSize, feeAmount := m.feeAmount,
               changeAmount := m.changeAmount, tx := m.tx) == m
  {
    var c1 := FromLastData(SpendingInfo(Merge(c, payload)));
    var c2 := FromLastData(Merge(c1, NoChange.(tx := Some(ownerTx(c1)))));
    Merge(c2, NoChange.(tx := Some(ownerTx(c2))))
  }

  /**
   * With spending switched off, the destination gets nothing while a change
   * output exists: either everything after the fee is change, or there is no
   * change and the destination amount is what the fee leaves (the shortfall when
   * the fee is not covered).
   */
  lemma PreparedNotSpending(c: Contract, payload: Patch, ownerTx: Contract -> Option<Tx>)
    requires !Merge(c, payload).spending
    ensures var r := Prepared(c, payload, ownerTx);
            || (r.toAmount == 0 && r.change && r.changeAmount == r.sumOfUTXO - r.feeAmount)
            || (r.toAmount == r.sumOfUTXO - r.feeAmount && !r.change && r.changeAmount == 0)
    ensures var r := Prepared(c, payload, ownerTx);
            r.sumOfUTXO - r.feeAmount <= 0 ==> r.toAmount == r.sumOfUTXO - r.feeAmount && !r.change
  {
    var s := SpendingInfo(Merge(c, payload));
    var c1 := FromLastData(s);
    assert s.toAmount == 0 && s.change;
    if c1.changeAmount != 0 {
      assert c1.toAmount == 0;
    }
  }

  class Store {
    const pages: array<Page>
    var pageSelected: int
    var contractValues: Contract
    var issues: map<IssueKey, Issue>

    ghost predicate Valid()
      reads this
    {
      pages.Length == 4
    }

    constructor ()
      ensures Valid() && fresh(pages)
      ensures pages[..] == InitialPages
      ensures pageSelected == 1 && contractValues == Initial && issues == map[]
    {
      pages := new Page[4](k requires 0 <= k < 4 => InitialPages[k]);
      pageSelected := 1;
      contractValues := Initial;
      issues := map[];
    }

    /** `setPageStatus`: overwrite the flags of one page, nothing else. */
    method SetPageStatus(pageNumber: int, valid: bool, usable: bool)
      requires Valid() && 1 <= pageNumber <= 4
      modifies pages
      ensures pages[..] == old(pages[..])[pageNumber - 1 := old(pages[pageNumber - 1]).(valid := valid, usable := usable)]
    {
      pages[pageNumber - 1] := pages[pageNumber - 1].(valid := valid, usable := usable);
    }

    /** `setPage`. */
    method SetPage(newPage: int)
      modifies this`pageSelected
      ensures pageSelected == newPage
    {
      pageSelected := newPage;
    }

    /** `setContractValues`: shallow merge of the payload. */
    method SetContractValues(payload: Patch)
      modifies this`contractValues
      ensures contractValues == Merge(old(contractValues), payload)
    {
      contractValues := Merge(contractValues, payload);
    }

    /** `setIssues`: shallow merge of the payload. */
    method SetIssues(payload: map<IssueKey, Issue>)
      modifies this`issues
      ensures issues == old(issues) + payload
    {
      issues := issues + payload;
    }

    /** `changePage`: select the page if it exists and is usable, else keep the selection. */
    method ChangePage(newPage: int)
      requires Valid()
      modifies this`pageSelected
      ensures 1 <= newPage <= 4 && pages[newPage - 1].usable ==> pageSelected == newPage
      ensures !(1 <= newPage <= 4 && pages[newPage - 1].usable) ==> pageSelected == old(pageSelected)
    {
      if 1 <= newPage <= pages.Length {
        var pageObject := pages[newPage - 1];
        if pageObject.usable {
          SetPage(newPage);
        }
      }
    }

    /** `deriveSpendingInfo`. */
    method DeriveSpendingInfo()
      modifies this`contractValues
      ensures contractValues == SpendingInfo(old(contractValues))
    {
      var contract := contractValues;
      var sumOfUTXO := SumOfUtxo(contract.selectedUTXO);
      SetContractValues(NoChange.(sumOfUTXO := Some(sumOfUTXO)));
      var changeAddress := contract.address;
      SetContractValues(NoChange.(changeAddress := Some(changeAddress)));
      if !contract.spending {
        SetContractValues(NoChange.(toAmount := Some(0), change := Some(true)));
      }
    }

    /** `deriveFromLastData`: fee first, then the target, change takes the rest. */
    method DeriveFromLastData()
      modifies this`contractValues
      ensures contractValues == FromLastData(old(contractValues))
      ensures contractValues.vSize == SizeFor(old(contractValues))
      ensures contractValues.feeAmount == MinFee(contractValues.vSize, contractValues.feeRate)
      ensures contractValues.feeAmount + contractValues.toAmount + contractValues.changeAmount
              == contractValues.sumOfUTXO
    {
      var contract := contractValues;
      var vSize := if contract.tx.Some? then contract.tx.value.virtualSize else contract.vSize;
      var minFee := MinFee(vSize, contract.feeRate);
      var inputs := contract.sumOfUTXO;
      var target := contract.toAmount;
      var remaining := inputs - minFee - target;
      if remaining <= 0 || !contract.change || target < 0 {
        target := target + remaining;
        remaining := 0;
      }
      SetContractValues(NoChange.(vSize := Some(vSize), feeAmount := Some(minFee), toAmount := Some(target),
                                  changeAmount := Some(remaining), change := Some(remaining != 0)));
    }

    /**
     * `updateStatus`. When a selected key has no dash the source throws while
     * checking page 2; then `ok` is false and only the page-1 commits have happened.
     */
    method UpdateStatus(whatWIF: string -> Option<Network>, whatAddress: string -> Option<Network>)
      returns (ok: bool)
      requires Valid()
      modifies this`contractValues, this`issues, pages
      ensures ok <==> KeysSplittable(old(contractValues).selectedUTXO)
      ensures contractValues == old(contractValues).(
                networkChoice := NetworkChoice(whatWIF(old(contractValues).ownerPrivateKeyWIF),
                                               whatAddress(old(contractValues).address)),
                addressType := AddressTypeOf(old(contractValues).address))
      ensures !ok ==> issues == Page1Issues(old(issues), old(contractValues), whatWIF, whatAddress)
      ensures !ok ==> pages[..] == old(pages[..])
      ensures ok ==> issues == StatusIssues(old(issues), old(contractValues), whatWIF, whatAddress)
      ensures ok ==> pages[..] == WithFlags(old(pages[..]), Gate(
                Page1Valid(old(contractValues), whatWIF, whatAddress),
                Page2Valid(old(contractValues)),
                Page3Valid(old(contractValues), whatAddress)))
    {
      var contract := contractValues;
      var isPage1Valid, networkChoice := CheckPage1(whatWIF, whatAddress);

      if !KeysSplittable(contract.selectedUTXO) {
        return false;
      }
      FinishStatus(contract, whatWIF, whatAddress, isPage1Valid, networkChoice);
      ok := true;
    }

    /** The part of `updateStatus` after page 1: the page-3 messages and the four page commits. */
    method FinishStatus(contract: Contract, whatWIF: string -> Option<Network>, whatAddress: string -> Option<Network>,
                        isPage1Valid: bool, networkChoice: string)
      requires Valid() && KeysSplittable(contract.selectedUTXO)
      requires networkChoice == NetworkChoice(whatWIF(contract.ownerPrivateKeyWIF), whatAddress(contract.address))
      modifies this`issues, pages
      ensures issues == old(issues)[Page3 := Messages(Page3MessagesFresh(contract, whatWIF, whatAddress))]
      ensures pages[..] == WithFlags(old(pages[..]), Gate(isPage1Valid, Page2Valid(contract), Page3Valid(contract, whatAddress)))
    {
      var enoughUTXO := contract.sumOfUTXO > 0;
      var isPage2Valid := ValuesDone(contract.selectedUTXO) && enoughUTXO;
      var isPage3Valid := Page3Valid(contract, whatAddress);
      var page3 := Page3Messages(contract, whatAddress(contract.toAddress), networkChoice);
      SetIssues(map[Page3 := Messages(page3)]);
      assert issues == old(issues)[Page3 := Messages(page3)];
      SetPages(isPage1Valid, isPage2Valid, isPage3Valid);
    }

    /** The page-1 part of `updateStatus`: its issue commits and the two derived fields. */
    method CheckPage1(whatWIF: string -> Option<Network>, whatAddress: string -> Option<Network>)
      returns (isPage1Valid: bool, networkChoice: string)
      modifies this`contractValues, this`issues
      ensures isPage1Valid == Page1Valid(old(contractValues), whatWIF, whatAddress)
      ensures networkChoice == NetworkChoice(whatWIF(old(contractValues).ownerPrivateKeyWIF),
                                             whatAddress(old(contractValues).address))
      ensures contractValues == old(contractValues).(networkChoice := networkChoice,
                                                     addressType := AddressTypeOf(old(contractValues).address))
      ensures issues == Page1Issues(old(issues), old(contractValues), whatWIF, whatAddress)
    {
      var contract := contractValues;
      var keyNetwork, addressNetwork := CheckNetworks(whatWIF, whatAddress);
      var doNetworksMatch := keyNetwork == addressNetwork;
      networkChoice := if doNetworksMatch && keyNetwork.Some? then keyNetwork.value else "";
      SetContractValues(NoChange.(networkChoice := Some(networkChoice)));
      SetContractValues(NoChange.(addressType := Some(AddressTypeOf(contract.address))));
      CheckLockAndScript(contract);
      var isRelativeLockTime := |contract.relativeLockTime| > 0;
      var isScriptHex := |contract.scriptHex| > 0;
      isPage1Valid := keyNetwork.Some? && addressNetwork.Some? && doNetworksMatch
                      && isRelativeLockTime && isScriptHex;
    }

    /** The key and address classification commits of `updateStatus`. */
    method CheckNetworks(whatWIF: string -> Option<Network>, whatAddress: string -> Option<Network>)
      returns (keyNetwork: Option<Network>, addressNetwork: Option<Network>)
      modifies this`issues
      ensures keyNetwork == whatWIF(contractValues.ownerPrivateKeyWIF)
      ensures addressNetwork == whatAddress(contractValues.address)
      ensures issues == NetworkIssues(old(issues), keyNetwork, addressNetwork)
    {
      var contract := contractValues;
      keyNetwork := whatWIF(contract.ownerPrivateKeyWIF);
      SetIssues(map[OwnerPrivateKeyWIF := Flag(keyNetwork.None?), OwnerPrivateKeyWIFInfo := Info(keyNetwork)]);
      assert issues == old(issues)[OwnerPrivateKeyWIF := Flag(keyNetwork.None?)][OwnerPrivateKeyWIFInfo := Info(keyNetwork)];
      addressNetwork := whatAddress(contract.address);
      ghost var step := issues;
      SetIssues(map[Address := Flag(addressNetwork.None?), AddressInfo := Info(addressNetwork)]);
      assert issues == step[Address := Flag(addressNetwork.None?)][AddressInfo := Info(addressNetwork)];
      var doNetworksMatch := keyNetwork == addressNetwork;
      SetIssues(map[AddressNetwork := Flag(!doNetworksMatch)]);
    }

    /** The lock-time and script commits of `updateStatus`, read from the snapshot `contract`. */
    method CheckLockAndScript(contract: Contract)
      modifies this`issues
      ensures issues == LockIssues(old(issues), contract)
    {
      var isRelativeLockTime := |contract.relativeLockTime| > 0;
      SetIssues(map[RelativeLockTime := Flag(!isRelativeLockTime)]);
      var isScriptHex := |contract.scriptHex| > 0;
      SetIssues(map[ScriptHex := Flag(!isScriptHex)]);
    }

    /** The four `setPageStatus` commits of `updateStatus`. */
    method SetPages(isPage1Valid: bool, isPage2Valid: bool, isPage3Valid: bool)
      requires Valid()
      modifies pages
      ensures pages[..] == WithFlags(old(pages[..]), Gate(isPage1Valid, isPage2Valid, isPage3Valid))
    {
      SetPageStatus(1, isPage1Valid, true);
      SetPageStatus(2, isPage2Valid, isPage1Valid);
      SetPageStatus(3, isPage3Valid, isPage2Valid);
      SetPageStatus(4, true, isPage3Valid);
    }

    /**
     * `changeContractValues`: merge the payload, derive, build, derive again,
     * build again, then run the status pass.
     */
    method ChangeContractValues(payload: Patch, ownerTx: Contract -> Option<Tx>,
                                whatWIF: string -> Option<Network>, whatAddress: string -> Option<Network>)
      returns (ok: bool)
      requires Valid()
      modifies this`contractValues, this`issues, pages
      ensures var p := Prepared(old(contractValues), payload, ownerTx);
              contractValues == p.(networkChoice := NetworkChoice(whatWIF(p.ownerPrivateKeyWIF), whatAddress(p.address)),
                                   addressType := AddressTypeOf(p.address))
      ensures contractValues.feeAmount + contractValues.toAmount + contractValues.changeAmount
              == contractValues.sumOfUTXO == SumOfUtxo(contractValues.selectedUTXO)
      ensures contractValues.changeAddress == contractValues.address
      ensures ok <==> KeysSplittable(contractValues.selectedUTXO)
      ensures ok ==> pages[0].usable && (pages[1].usable <==> pages[0].valid)
                     && (pages[2].usable <==> pages[1].valid) && (pages[3].usable <==> pages[2].valid)
      ensures var p := Prepared(old(contractValues), payload, ownerTx);
              ok ==> && issues == StatusIssues(old(issues), p, whatWIF, whatAddress)
                     && pages[..] == WithFlags(old(pages[..]), Gate(Page1Valid(p, whatWIF, whatAddress),
                                                                    Page2Valid(p), Page3Valid(p, whatAddress)))
      ensures var p := Prepared(old(contractValues), payload, ownerTx);
              !ok ==> issues == Page1Issues(old(issues), p, whatWIF, whatAddress) && pages[..] == old(pages[..])
    {
      SetContractValues(payload);
      DeriveSpendingInfo();
      DeriveFromLastData();
      SetContractValues(NoChange.(tx := Some(ownerTx(contractValues))));
      DeriveFromLastData();
      SetContractValues(NoChange.(tx := Some(ownerTx(contractValues))));
      ok := UpdateStatus(whatWIF, whatAddress);
    }
  }
}
