/** The classification of an inventory item for contribution to an INN-Reach central server
    (`getItemCirculationStatus` and its helpers). The rules are ordered and the first that
    applies decides: an excluded item is non-lendable, a checked-out item is on loan, an item
    in transit with an open request is not available, and any other item is available unless
    its status is listed as "not available". */
module ItemEligibility {
  import opened Calls
  import opened Domain

  /** The request-storage lookup: the total number of open requests for an item id. */
  type RequestLookup = Uuid -> Fallible<int>

  predicate IsItemNonLendableByLoanTypes(item: InventoryItem, config: ItemContributionOptions) {
    item.permanentLoanTypeId in config.nonLendableLoanTypes
    || item.temporaryLoanTypeId in config.nonLendableLoanTypes
  }

  predicate IsItemNonLendableByLocations(item: InventoryItem, config: ItemContributionOptions) {
    item.permanentLocationId in config.nonLendableLocations
  }

  predicate IsItemNonLendableByMaterialTypes(item: InventoryItem, config: ItemContributionOptions) {
    item.materialTypeId in config.nonLendableMaterialTypes
  }

  predicate IsItemNonLendable(item: InventoryItem, config: ItemContributionOptions) {
    IsItemNonLendableByLoanTypes(item, config)
    || IsItemNonLendableByLocations(item, config)
    || IsItemNonLendableByMaterialTypes(item, config)
  }

  /** Whether the item has at least one open request; the lookup may throw. */
  function IsItemRequested(item: InventoryItem, findRequests: RequestLookup): Fallible<bool> {
    match findRequests(item.id)
    case Threw => Threw
    case Ok(totalRecords) => Ok(totalRecords != 0)
  }

  /** The status rule alone: the status is "Available", or its name is not listed as not available. */
  predicate IsStatusAvailable(status: ItemStatus, config: ItemContributionOptions) {
    status.IsAvailable() || status.name !in config.notAvailableItemStatuses
  }

  /** Requests are looked up only for an item in transit (the `&&` short-circuits). */
  function IsItemAvailableForContribution(
    item: InventoryItem, config: ItemContributionOptions, findRequests: RequestLookup): Fallible<bool>
  {
    if item.status.IsInTransit() then
      match IsItemRequested(item, findRequests)
      case Threw => Threw
      case Ok(requested) => if requested then Ok(false) else Ok(IsStatusAvailable(item.status, config))
    else
      Ok(IsStatusAvailable(item.status, config))
  }

  /** `getItemCirculationStatus`: the options of the central server and the item are fetched
      first; nothing catches an exception, so a thrown fetch or lookup makes the whole call throw. */
  function GetItemCirculationStatus(
    config: Fallible<ItemContributionOptions>, item: Fallible<InventoryItem>, findRequests: RequestLookup)
    : Fallible<ContributionItemCirculationStatus>
  {
    match config
    case Threw => Threw
    case Ok(c) =>
      match item
      case Threw => Threw
      case Ok(i) =>
        if IsItemNonLendable(i, c) then Ok(NonLendable)
        else if i.status.IsCheckedOut() then Ok(OnLoan)
        else
          match IsItemAvailableForContribution(i, c, findRequests)
          case Threw => Threw
          case Ok(available) => if available then Ok(Available) else Ok(NotAvailable)
  }

  /** The item needs a request lookup: it is neither excluded nor checked out, and is in transit. */
  predicate RequestLookupNeeded(item: InventoryItem, config: ItemContributionOptions) {
    !IsItemNonLendable(item, config) && !item.status.IsCheckedOut() && item.status.IsInTransit()
  }

  /** The classification written as a decision table over the item, the options and the number
      of open requests: the reference the function above is checked against. */
  function ExpectedStatus(item: InventoryItem, config: ItemContributionOptions, openRequests: int)
    : ContributionItemCirculationStatus
  {
    var excluded :=
      item.permanentLoanTypeId in config.nonLendableLoanTypes
      || item.temporaryLoanTypeId in config.nonLendableLoanTypes
      || item.permanentLocationId in config.nonLendableLocations
      || item.materialTypeId in config.nonLendableMaterialTypes;
    var inTransitWithRequest := item.status.name == IN_TRANSIT_STATUS && openRequests != 0;
    if excluded then NonLendable
    else if item.status.name == CHECKED_OUT_STATUS then OnLoan
    else if item.status.name == AVAILABLE_STATUS
         || (!inTransitWithRequest && item.status.name !in config.notAvailableItemStatuses)
    then Available
    else NotAvailable
  }

  /** Whenever the request lookup answers, the classification is the decision table's. */
  lemma ClassificationMatchesTable(
    config: ItemContributionOptions, item: InventoryItem, findRequests: RequestLookup, openRequests: int)
    requires findRequests(item.id) == Ok(openRequests)
    ensures GetItemCirculationStatus(Ok(config), Ok(item), findRequests)
            == Ok(ExpectedStatus(item, config, openRequests))
  {
  }

  /** An excluded loan type, location or material type makes the item non-lendable whatever its
      status and its requests; and only an excluded item is non-lendable. */
  lemma NonLendableIffExcluded(config: ItemContributionOptions, item: InventoryItem, findRequests: RequestLookup)
    ensures GetItemCirculationStatus(Ok(config), Ok(item), findRequests) == Ok(NonLendable)
            <==> (item.permanentLoanTypeId in config.nonLendableLoanTypes
                  || item.temporaryLoanTypeId in config.nonLendableLoanTypes
                  || item.permanentLocationId in config.nonLendableLocations
                  || item.materialTypeId in config.nonLendableMaterialTypes)
  {
  }

  /** A checked-out item is on loan unless it is excluded; nothing else is on loan. */
  lemma OnLoanIffCheckedOutAndNotExcluded(
    config: ItemContributionOptions, item: InventoryItem, findRequests: RequestLookup)
    ensures GetItemCirculationStatus(Ok(config), Ok(item), findRequests) == Ok(OnLoan)
            <==> !IsItemNonLendable(item, config) && item.status.IsCheckedOut()
  {
  }

  /** An item in transit with an open request is not available, even when "In transit" is not
      listed among the not-available statuses. */
  lemma InTransitWithRequestNotAvailable(
    config: ItemContributionOptions, item: InventoryItem, findRequests: RequestLookup, openRequests: int)
    requires !IsItemNonLendable(item, config)
    requires item.status.IsInTransit()
    requires findRequests(item.id) == Ok(openRequests) && openRequests != 0
    ensures GetItemCirculationStatus(Ok(config), Ok(item), findRequests) == Ok(NotAvailable)
  {
  }

  /** Any other item that is neither excluded nor checked out is available exactly when its
      status is "Available" or its status name is not listed, and not available otherwise. */
  lemma AvailableIffStatusAllows(
    config: ItemContributionOptions, item: InventoryItem, findRequests: RequestLookup)
    requires !IsItemNonLendable(item, config) && !item.status.IsCheckedOut()
    requires item.status.IsInTransit() ==> findRequests(item.id) == Ok(0)
    ensures GetItemCirculationStatus(Ok(config), Ok(item), findRequests)
            == if item.status.IsAvailable() || item.status.name !in config.notAvailableItemStatuses
               then Ok(Available) else Ok(NotAvailable)
  {
  }

  /** The request store is consulted only for an item that is in transit and neither excluded
      nor checked out: for any other item two request stores, failing or not, give one result. */
  lemma RequestStoreConsultedOnlyWhenNeeded(
    config: ItemContributionOptions, item: InventoryItem, store1: RequestLookup, store2: RequestLookup)
    requires !RequestLookupNeeded(item, config)
    ensures GetItemCirculationStatus(Ok(config), Ok(item), store1)
            == GetItemCirculationStatus(Ok(config), Ok(item), store2)
    ensures GetItemCirculationStatus(Ok(config), Ok(item), store1).Ok?
  {
  }

  /** Nothing catches a failure here: a thrown fetch of the options or of the item, or a thrown
      request lookup that is needed, makes the classification throw; nothing else does. */
  lemma FailuresPropagate(
    config: Fallible<ItemContributionOptions>, item: Fallible<InventoryItem>, findRequests: RequestLookup)
    ensures GetItemCirculationStatus(config, item, findRequests).Threw?
            <==> (config.Threw? || item.Threw?
                  || (RequestLookupNeeded(item.value, config.value) && findRequests(item.value.id).Threw?))
  {
  }

  /** The example of an excluded permanent loan type: non-lendable even when the status is "Available". */
  lemma ExcludedLoanTypeOnAvailableItem(findRequests: RequestLookup)
    ensures var config := ItemContributionOptions([7], [], [], []);
            var item := InventoryItem(1, ItemStatus(AVAILABLE_STATUS), 7, 8, 9, 10);
            GetItemCirculationStatus(Ok(config), Ok(item), findRequests) == Ok(NonLendable)
  {
  }
}
