/** The values the contribution logic reads: inventory items, the per-server contribution
    options, library mappings, local agencies and contribution records. */
module Domain {
  import opened Calls

  /** A `java.util.UUID`. The logic only compares identifiers for equality, so a number stands for one. */
  type Uuid = nat

  const AVAILABLE_STATUS: string := "Available"
  const CHECKED_OUT_STATUS: string := "Checked out"
  const IN_TRANSIT_STATUS: string := "In transit"

  /** The status of an inventory item, known by its name. */
  datatype ItemStatus = ItemStatus(name: string) {
    predicate IsAvailable() { name == AVAILABLE_STATUS }
    predicate IsCheckedOut() { name == CHECKED_OUT_STATUS }
    predicate IsInTransit() { name == IN_TRANSIT_STATUS }
  }

  /** A snapshot of an inventory item, as the inventory returns it. */
  datatype InventoryItem = InventoryItem(
    id: Uuid,
    status: ItemStatus,
    permanentLoanTypeId: Uuid,
    temporaryLoanTypeId: Uuid,
    permanentLocationId: Uuid,
    materialTypeId: Uuid)

  /** The item contribution options of one central server: identifiers excluded from
      contribution, and the item status names that count as "not available". */
  datatype ItemContributionOptions = ItemContributionOptions(
    nonLendableLoanTypes: seq<Uuid>,
    nonLendableLocations: seq<Uuid>,
    nonLendableMaterialTypes: seq<Uuid>,
    notAvailableItemStatuses: seq<string>)

  /** The status of an item for contribution to the central server. */
  datatype ContributionItemCirculationStatus = NonLendable | OnLoan | Available | NotAvailable

  /** The verdict of a mapping validation: there is no partial verdict. */
  datatype MappingValidationStatus = Valid | Invalid

  /** A local library mapped to an INN-Reach location of the central server. */
  datatype LibraryMapping = LibraryMapping(libraryId: Uuid, innReachLocationId: Uuid)

  /** A local agency of the central server and the local libraries it stands for. */
  datatype LocalAgency = LocalAgency(code: string, folioLibraryIds: seq<Uuid>)

  /** A stored contribution record; each field is absent on a record that was never stored. */
  datatype Contribution = Contribution(
    id: Option<Uuid>,
    status: Option<string>,
    createdBy: Option<string>,
    createdDate: Option<int>,
    updatedBy: Option<string>,
    updatedDate: Option<int>)

  /** The record `new Contribution()` gives: nothing set. */
  function NewContribution(): Contribution {
    Contribution(None, None, None, None, None, None)
  }
}
