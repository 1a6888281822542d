# Contribution decision logic of the INN-Reach integration module

This project models the decision logic of the contribution service of the INN-Reach module
(`ContributionServiceImpl`). Three parts are covered:

- **Item circulation status** (`getItemCirculationStatus`). An inventory item and the contribution
  options of a central server map to exactly one of `NON_LENDABLE`, `ON_LOAN`, `AVAILABLE` and
  `NOT_AVAILABLE`. The rules are ordered: an excluded loan type, location or material type comes first,
  then "checked out", then "in transit with an open request", then the not-available status list.
- **Mapping validators** (`validateTypeMappings`, `validateLocationMappings`). Each gives `VALID`
  or `INVALID`. Material types need an exact count match. Libraries need every library of every
  local agency to be mapped. INN-Reach location codes are checked only after the library check
  passes. Any exception gives `INVALID`.
- **`getCurrent`**. The stored or empty contribution record, with both verdicts set in place.

Every collaborator (inventory, request storage, configuration, mapping services, the central
server) is an input. Its answer is `Fallible<T>`: `Ok(value)`, or `Threw` for a call that raised
an exception. A call whose argument comes from an earlier answer is a function-typed input, so the
argument it receives is part of the model. This covers `countByTypeIds(typeIds)`,
`getInnReachLocations(ids)` and `findRequests(itemId)`.

Files: `calls.dfy` (Option, Fallible), `domain.dfy` (the values), `sequences.dfy` (`distinct`,
`flatMap`, `containsAll`), `item_eligibility.dfy`, `mapping_validation.dfy`,
`contribution_service.dfy`.

Three behaviours of the code a reader might not expect:
- The material-type check counts the local inventory's material types (`materialTypesClient`)
  against the stored mappings. It does not use a partner-side catalog.
- The library check only needs the mapped ids to contain every required id. Duplicate or
  extra mappings are accepted, so it does not require exactly one mapping per library.
- Requests are looked up only for an item that is in transit and is neither excluded nor checked
  out. An evaluation does not always make one lookup.

## Model

| member | source | states |
|---|---|---|
| `ItemEligibility.GetItemCirculationStatus` | src/main/java/org/folio/innreach/domain/service/impl/ContributionServiceImpl.java:165-185 | the ordered classification: options and item fetched first (a throw propagates), then non-lendable, on loan, available, not available; its properties are `ClassificationMatchesTable`, `NonLendableIffExcluded`, `OnLoanIffCheckedOutAndNotExcluded`, `AvailableIffStatusAllows` and `FailuresPropagate` |
| `ItemEligibility.IsItemNonLendable` | src/main/java/org/folio/innreach/domain/service/impl/ContributionServiceImpl.java:187-192 | an item is excluded when its loan types, location or material type are excluded; stated as an iff in `NonLendableIffExcluded` |
| `ItemEligibility.IsItemNonLendableByLoanTypes` | src/main/java/org/folio/innreach/domain/service/impl/ContributionServiceImpl.java:194-199 | the permanent or the temporary loan type is in the non-lendable loan types; covered by `NonLendableIffExcluded` |
| `ItemEligibility.IsItemNonLendableByLocations` | src/main/java/org/folio/innreach/domain/service/impl/ContributionServiceImpl.java:201-205 | the permanent location is in the non-lendable locations; covered by `NonLendableIffExcluded` |
| `ItemEligibility.IsItemNonLendableByMaterialTypes` | src/main/java/org/folio/innreach/domain/service/impl/ContributionServiceImpl.java:207-211 | the material type is in the non-lendable material types; covered by `NonLendableIffExcluded` |
| `ItemEligibility.IsItemAvailableForContribution` | src/main/java/org/folio/innreach/domain/service/impl/ContributionServiceImpl.java:213-222 | false for an item in transit with an open request, else the status rule; stated by `InTransitWithRequestNotAvailable`, `AvailableIffStatusAllows` and `RequestStoreConsultedOnlyWhenNeeded` |
| `ItemEligibility.IsItemRequested` | src/main/java/org/folio/innreach/domain/service/impl/ContributionServiceImpl.java:224-227 | a nonzero open-request total, or the lookup's throw; used by `InTransitWithRequestNotAvailable` and `FailuresPropagate` |
| `MappingValidation.TryValidateTypeMappings` | src/main/java/org/folio/innreach/domain/service/impl/ContributionServiceImpl.java:82-87 | the try block: fetch the material-type ids, count their mappings, compare the count with the number of ids; stated by `TypeMappingsValidIffCountMatches` |
| `MappingValidation.ValidateTypeMappings` | src/main/java/org/folio/innreach/domain/service/impl/ContributionServiceImpl.java:81-92 | the try block with its catch as INVALID; stated by `TypeMappingsValidIffCountMatches`, `TypeMappingsValidIffEveryTypeMapped` and `TypeMappingsFailClosed` |
| `MappingValidation.TryValidateLocationMappings` | src/main/java/org/folio/innreach/domain/service/impl/ContributionServiceImpl.java:102-110 | the try block: fetch the library mappings, check libraries, return that verdict unless VALID, else check INN-Reach codes; stated by `LocationsNotConsultedWhenLibrariesFail` and `LocationMappingsValidIff` |
| `MappingValidation.ValidateLocationMappings` | src/main/java/org/folio/innreach/domain/service/impl/ContributionServiceImpl.java:101-115 | the try block with its catch as INVALID; stated by `LocationMappingsValidIff` and `LocationMappingsFailClosed` |
| `MappingValidation.ValidateLibraryMappings` | src/main/java/org/folio/innreach/domain/service/impl/ContributionServiceImpl.java:117-125 | the mapped library ids contain every local agency's library id; stated by `LibraryMappingsValidIffEveryLibraryMapped` and `ExtraMappingsKeepLibrariesValid` |
| `MappingValidation.ValidateInnReachLocations` | src/main/java/org/folio/innreach/domain/service/impl/ContributionServiceImpl.java:127-142 | the central server's codes, then the codes of the mapped INN-Reach location ids (lines 156-163), then `containsAll`; stated by `LocationMappingsValidIff` |
| `MappingValidation.MappedLibraryIds` | src/main/java/org/folio/innreach/domain/service/impl/ContributionServiceImpl.java:120-122 | the library id of each mapping, in order; used by `LibraryMappingsValidIffEveryLibraryMapped` |
| `MappingValidation.MappedInnReachLocationIds` | src/main/java/org/folio/innreach/domain/service/impl/ContributionServiceImpl.java:157 | the INN-Reach location id of each mapping, in order; used by `LocationMappingsValidIff` |
| `MappingValidation.MappedTypeCount` | src/main/java/org/folio/innreach/domain/service/impl/ContributionServiceImpl.java:85 | the number of stored type mappings among the listed ids, as the count is read in `TypeMappingsValidIffEveryTypeMapped` |
| `ItemEligibility.ClassificationMatchesTable` | src/main/java/org/folio/innreach/domain/service/impl/ContributionServiceImpl.java:165-227 | whenever the request lookup answers, the classification equals the ordered decision table (excluded → NON_LENDABLE, checked out → ON_LOAN, "Available" or not in-transit-with-request and unlisted → AVAILABLE, else NOT_AVAILABLE) |
| `ItemEligibility.NonLendableIffExcluded` | src/main/java/org/folio/innreach/domain/service/impl/ContributionServiceImpl.java:187-211 | the result is NON_LENDABLE exactly when the permanent or temporary loan type, the permanent location or the material type is in its exclusion list, whatever the status and requests |
| `ItemEligibility.OnLoanIffCheckedOutAndNotExcluded` | src/main/java/org/folio/innreach/domain/service/impl/ContributionServiceImpl.java:172-178 | ON_LOAN exactly when the item is checked out and not excluded; exclusion takes precedence |
| `ItemEligibility.InTransitWithRequestNotAvailable` | src/main/java/org/folio/innreach/domain/service/impl/ContributionServiceImpl.java:213-226 | a non-excluded item in transit with a nonzero open-request total is NOT_AVAILABLE even when "In transit" is not a listed status |
| `ItemEligibility.AvailableIffStatusAllows` | src/main/java/org/folio/innreach/domain/service/impl/ContributionServiceImpl.java:180-184 | otherwise a non-excluded, non-checked-out item is AVAILABLE iff its status is "Available" or its name is not listed, else NOT_AVAILABLE |
| `ItemEligibility.RequestStoreConsultedOnlyWhenNeeded` | src/main/java/org/folio/innreach/domain/service/impl/ContributionServiceImpl.java:213-226 | unless the item is in transit and neither excluded nor checked out, the result does not depend on the request store at all, even a failing one |
| `ItemEligibility.FailuresPropagate` | src/main/java/org/folio/innreach/domain/service/impl/ContributionServiceImpl.java:166-185 | the classification throws exactly when the options fetch, the item fetch or a needed request lookup throws; nothing is caught |
| `ItemEligibility.ExcludedLoanTypeOnAvailableItem` | src/main/java/org/folio/innreach/domain/service/impl/ContributionServiceImpl.java:194-199 | an item whose permanent loan type is excluded is NON_LENDABLE although its status is "Available" |
| `MappingValidation.FailClosed` | src/main/java/org/folio/innreach/domain/service/impl/ContributionServiceImpl.java:88-91 | the catch block: the verdict is VALID only when the attempt answered VALID; a thrown call becomes INVALID |
| `MappingValidation.TypeMappingsValidIffCountMatches` | src/main/java/org/folio/innreach/domain/service/impl/ContributionServiceImpl.java:81-92 | material types are VALID iff both calls answer and the mapped count equals the number of material-type ids |
| `MappingValidation.TypeMappingsValidIffEveryTypeMapped` | src/main/java/org/folio/innreach/domain/service/impl/ContributionServiceImpl.java:83-87 | with the count taken as the number of mapped listed types and no repeated ids, VALID iff every material type is mapped |
| `MappingValidation.AllButOneTypeMappedIsInvalid` | src/main/java/org/folio/innreach/domain/service/impl/ContributionServiceImpl.java:85-87 | one listed material type left unmapped gives INVALID, whatever other ids the store maps: mapping all but one is not enough |
| `MappingValidation.FiveMaterialTypesExample` | src/main/java/org/folio/innreach/domain/service/impl/ContributionServiceImpl.java:87 | five material types, counted through `MappedTypeCount`: mappings of all five are VALID, mappings of four of them INVALID |
| `MappingValidation.TypeMappingsFailClosed` | src/main/java/org/folio/innreach/domain/service/impl/ContributionServiceImpl.java:82-91 | a thrown catalog fetch or count gives INVALID rather than an exception |
| `Sequences.Distinct` | src/main/java/org/folio/innreach/domain/service/impl/ContributionServiceImpl.java:148 | the result has no duplicates and holds exactly the elements of the input |
| `Sequences.Flatten` | src/main/java/org/folio/innreach/domain/service/impl/ContributionServiceImpl.java:147 | an element is in the result iff it is in one of the lists |
| `MappingValidation.FolioLibraryIds` | src/main/java/org/folio/innreach/domain/service/impl/ContributionServiceImpl.java:144-150 | the result has no duplicates and holds exactly the library ids of all local agencies |
| `MappingValidation.LibraryMappingsValidIffEveryLibraryMapped` | src/main/java/org/folio/innreach/domain/service/impl/ContributionServiceImpl.java:117-125 | the library check is VALID iff every library id of every local agency is the library of some mapping |
| `MappingValidation.ExtraMappingsKeepLibrariesValid` | src/main/java/org/folio/innreach/domain/service/impl/ContributionServiceImpl.java:120-124 | any mapping list holding every mapping of a VALID list is VALID too: extra mappings never turn the library check INVALID |
| `MappingValidation.TwoLibrariesExample` | src/main/java/org/folio/innreach/domain/service/impl/ContributionServiceImpl.java:117-125 | required libraries {1, 2}: mappings of 1, 2, 3 are VALID, a mapping of 1 alone is INVALID |
| `MappingValidation.LocationsNotConsultedWhenLibrariesFail` | src/main/java/org/folio/innreach/domain/service/impl/ContributionServiceImpl.java:101-110 | a failing library check is the verdict, unchanged by whatever the INN-Reach location calls would answer |
| `MappingValidation.LocationMappingsValidIff` | src/main/java/org/folio/innreach/domain/service/impl/ContributionServiceImpl.java:101-163 | locations are VALID iff every call answers, every local library is mapped and every mapped INN-Reach code is in the central server's code list |
| `MappingValidation.LocationMappingsFailClosed` | src/main/java/org/folio/innreach/domain/service/impl/ContributionServiceImpl.java:111-114 | a thrown mapping, agency, central-server-code or location-code call gives INVALID |
| `ContributionService.ContributionDto.FromEntity` | src/main/java/org/folio/innreach/domain/service/impl/ContributionServiceImpl.java:67 | the mapped record carries the entity's fields and no verdicts yet |
| `ContributionService.ContributionDto.SetItemTypeMappingStatus` | src/main/java/org/folio/innreach/domain/service/impl/ContributionServiceImpl.java:69 | sets the material-type verdict and nothing else |
| `ContributionService.ContributionDto.SetLocationsMappingStatus` | src/main/java/org/folio/innreach/domain/service/impl/ContributionServiceImpl.java:70 | sets the locations verdict and nothing else |
| `ContributionService.GetCurrent` | src/main/java/org/folio/innreach/domain/service/impl/ContributionServiceImpl.java:63-73 | returns a new record holding the stored contribution or an empty default, with both verdicts freshly set from the two validators |

## Left out

- `getHistory` (lines 75-79) is a repository query passed through the mapper. It has no decision logic.
- Repository and mapper calls are not modelled. The stored record is an input, and `mapper.toDTO` copies the record's fields.
- The `Contribution` entity is not part of this model. Its fields are stood in for by an id, a status and creation/update metadata.
- Paging arguments and the `LIMIT = 2000` page size are not modelled. Each collaborator's answer is the list it returns.
- Logging of caught exceptions is not modelled.
- The remote calls behind the validators and the classifier are inputs. Their own behaviour is not modelled.
- Null references are not modelled, such as an item without a temporary loan type (line 198). Every item field is present.
- The item status enum is not part of this model. A status is known by its name, and the checked-out, in-transit and available tests compare the name with "Checked out", "In transit" and "Available".
- UUIDs are numbers, because the logic only compares them for equality.
- `MappingValidation.TypeMappingsValidIffEveryTypeMapped`: the type-mapping store's count is not visible here. The lemma assumes the count is the number of mapped types among the listed ids, and that the catalog lists no id twice.
- The controller, the Feign client, the entities and the repositories hold no decision logic, so they are not modelled.
