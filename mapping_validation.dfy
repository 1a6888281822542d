/** The mapping validators of a central server (`validateTypeMappings`, `validateLocationMappings`
    and their helpers). Each collaborator's answer is an input that may be a thrown call; every
    validator catches whatever its calls throw and answers INVALID (it fails closed). */
module MappingValidation {
  import opened Calls
  import opened Domain
  import opened Sequences

  /** What the collaborators answer for one central server. */
  datatype CentralServerAnswers = CentralServerAnswers(
    // the material types of the inventory (their ids, one page of up to 2000)
    materialTypeIds: Fallible<seq<Uuid>>,
    // the number of material-type mappings of the server whose type is among the given ids
    countByTypeIds: seq<Uuid> -> Fallible<int>,
    // the library mappings of the server (one page of up to 2000)
    libraryMappings: Fallible<seq<LibraryMapping>>,
    // the local agencies of the central server
    localAgencies: Fallible<seq<LocalAgency>>,
    // the codes of all locations the INN-Reach central server knows
    innReachLocationCodes: Fallible<seq<string>>,
    // the codes of the stored INN-Reach locations with the given ids
    innReachLocationCodesByIds: seq<Uuid> -> Fallible<seq<string>>)

  /** The catch block of every validator: a thrown call becomes INVALID. */
  function FailClosed(attempt: Fallible<MappingValidationStatus>): (r: MappingValidationStatus)
    ensures r == Valid <==> attempt == Ok(Valid)
  {
    match attempt
    case Threw => Invalid
    case Ok(status) => status
  }

  /** The try block of `validateTypeMappings`. */
  function TryValidateTypeMappings(answers: CentralServerAnswers): Fallible<MappingValidationStatus> {
    match answers.materialTypeIds
    case Threw => Threw
    case Ok(typeIds) =>
      match answers.countByTypeIds(typeIds)
      case Threw => Threw
      case Ok(mappedTypesCounter) => Ok(if mappedTypesCounter == |typeIds| then Valid else Invalid)
  }

  function ValidateTypeMappings(answers: CentralServerAnswers): MappingValidationStatus {
    FailClosed(TryValidateTypeMappings(answers))
  }

  /** `getFolioLibraryIds`: the library ids of all local agencies, each once. */
  function FolioLibraryIds(agencies: seq<LocalAgency>): (r: seq<Uuid>)
    ensures NoDuplicates(r)
    ensures forall id :: id in r <==> exists k :: 0 <= k < |agencies| && id in agencies[k].folioLibraryIds
  {
    var perAgency := seq(|agencies|, k requires 0 <= k < |agencies| => agencies[k].folioLibraryIds);
    assert forall k :: 0 <= k < |agencies| ==> perAgency[k] == agencies[k].folioLibraryIds;
    Distinct(Flatten(perAgency))
  }

  function MappedLibraryIds(mappings: seq<LibraryMapping>): seq<Uuid> {
    seq(|mappings|, k requires 0 <= k < |mappings| => mappings[k].libraryId)
  }

  function MappedInnReachLocationIds(mappings: seq<LibraryMapping>): seq<Uuid> {
    seq(|mappings|, k requires 0 <= k < |mappings| => mappings[k].innReachLocationId)
  }

  /** `validateLibraryMappings`: every library of every local agency is mapped. Fetching the
      agencies may throw; the exception reaches the caller's catch block. */
  function ValidateLibraryMappings(answers: CentralServerAnswers, mappings: seq<LibraryMapping>)
    : Fallible<MappingValidationStatus>
  {
    match answers.localAgencies
    case Threw => Threw
    case Ok(agencies) =>
      Ok(if ContainsAll(MappedLibraryIds(mappings), FolioLibraryIds(agencies)) then Valid else Invalid)
  }

  /** `validateInnReachLocations`: every mapped INN-Reach location code is one the central server knows. */
  function ValidateInnReachLocations(answers: CentralServerAnswers, mappings: seq<LibraryMapping>)
    : Fallible<MappingValidationStatus>
  {
    match answers.innReachLocationCodes
    case Threw => Threw
    case Ok(irLocationCodes) =>
      match answers.innReachLocationCodesByIds(MappedInnReachLocationIds(mappings))
      case Threw => Threw
      case Ok(mappedIrLocationCodes) =>
        Ok(if ContainsAll(irLocationCodes, mappedIrLocationCodes) then Valid else Invalid)
  }

  /** The try block of `validateLocationMappings`: the INN-Reach locations are checked only
      when the library check passed; otherwise its verdict is the answer. */
  function TryValidateLocationMappings(answers: CentralServerAnswers): Fallible<MappingValidationStatus> {
    match answers.libraryMappings
    case Threw => Threw
    case Ok(mappings) =>
      match ValidateLibraryMappings(answers, mappings)
      case Threw => Threw
      case Ok(libraryMappingStatus) =>
        if libraryMappingStatus != Valid then Ok(libraryMappingStatus)
        else ValidateInnReachLocations(answers, mappings)
  }

  function ValidateLocationMappings(answers: CentralServerAnswers): MappingValidationStatus {
    FailClosed(TryValidateLocationMappings(answers))
  }

  // ---------------------------------------------------------------------------------------
  // Material types

  /** The material types are VALID exactly when both calls answer and the mapped count equals
      the number of material types; a thrown call is INVALID. */
  lemma TypeMappingsValidIffCountMatches(answers: CentralServerAnswers)
    ensures ValidateTypeMappings(answers) == Valid
            <==> (answers.materialTypeIds.Ok?
                  && answers.countByTypeIds(answers.materialTypeIds.value)
                     == Ok(|answers.materialTypeIds.value|))
  {
  }

  /** What the type-mapping store counts: its mappings (one per material type) whose type is listed. */
  function MappedTypeCount(mapped: set<Uuid>, typeIds: seq<Uuid>): nat {
    |mapped * Elements(typeIds)|
  }

  /** When the store counts the mapped types, the material types of a catalog without repeated ids
      are VALID exactly when every one of them is mapped. */
  lemma {:induction false} TypeMappingsValidIffEveryTypeMapped(
    answers: CentralServerAnswers, mapped: set<Uuid>, typeIds: seq<Uuid>)
    requires answers.materialTypeIds == Ok(typeIds) && NoDuplicates(typeIds)
    requires answers.countByTypeIds(typeIds) == Ok(MappedTypeCount(mapped, typeIds))
    ensures ValidateTypeMappings(answers) == Valid <==> forall k :: 0 <= k < |typeIds| ==> typeIds[k] in mapped
  {
    NoDuplicatesCardinality(typeIds);
    var covered := mapped * Elements(typeIds);
    SubsetCardinality(covered, Elements(typeIds));
    if forall k :: 0 <= k < |typeIds| ==> typeIds[k] in mapped {
      assert covered == Elements(typeIds);
    } else {
      var k :| 0 <= k < |typeIds| && typeIds[k] !in mapped;
      assert typeIds[k] in typeIds;
      assert typeIds[k] in Elements(typeIds);
      assert typeIds[k] !in covered;
    }
  }

  /** A material type left unmapped makes the material types INVALID: mapping all but one is not enough. */
  lemma AllButOneTypeMappedIsInvalid(answers: CentralServerAnswers, mapped: set<Uuid>, typeIds: seq<Uuid>, j: nat)
    requires answers.materialTypeIds == Ok(typeIds) && NoDuplicates(typeIds)
    requires answers.countByTypeIds(typeIds) == Ok(MappedTypeCount(mapped, typeIds))
    requires j < |typeIds| && typeIds[j] !in mapped
    ensures ValidateTypeMappings(answers) == Invalid
  {
    TypeMappingsValidIffEveryTypeMapped(answers, mapped, typeIds);
  }

  /** Five material types: with all five mapped the material types are VALID; with four of them
      mapped, INVALID. */
  lemma FiveMaterialTypesExample(answers: CentralServerAnswers)
    requires answers.materialTypeIds == Ok([1, 2, 3, 4, 5])
    ensures answers.countByTypeIds([1, 2, 3, 4, 5]) == Ok(MappedTypeCount({1, 2, 3, 4, 5}, [1, 2, 3, 4, 5]))
            ==> ValidateTypeMappings(answers) == Valid
    ensures answers.countByTypeIds([1, 2, 3, 4, 5]) == Ok(MappedTypeCount({1, 2, 3, 4}, [1, 2, 3, 4, 5]))
            ==> ValidateTypeMappings(answers) == Invalid
  {
    var typeIds: seq<Uuid> := [1, 2, 3, 4, 5];
    if answers.countByTypeIds(typeIds) == Ok(MappedTypeCount({1, 2, 3, 4, 5}, typeIds)) {
      TypeMappingsValidIffEveryTypeMapped(answers, {1, 2, 3, 4, 5}, typeIds);
    }
    if answers.countByTypeIds(typeIds) == Ok(MappedTypeCount({1, 2, 3, 4}, typeIds)) {
      TypeMappingsValidIffEveryTypeMapped(answers, {1, 2, 3, 4}, typeIds);
      assert typeIds[4] !in {1, 2, 3, 4};
    }
  }

  // ---------------------------------------------------------------------------------------
  // Libraries

  /** The library check passes exactly when every library id of every local agency is the
      library of some mapping. */
  lemma LibraryMappingsValidIffEveryLibraryMapped(
    answers: CentralServerAnswers, agencies: seq<LocalAgency>, mappings: seq<LibraryMapping>)
    requires answers.localAgencies == Ok(agencies)
    ensures ValidateLibraryMappings(answers, mappings) == Ok(Valid)
            <==> forall k, id :: 0 <= k < |agencies| && id in agencies[k].folioLibraryIds
                   ==> exists m :: 0 <= m < |mappings| && mappings[m].libraryId == id
  {
    var required := FolioLibraryIds(agencies);
    var mappedIds := MappedLibraryIds(mappings);
    if ContainsAll(mappedIds, required) {
      forall k, id | 0 <= k < |agencies| && id in agencies[k].folioLibraryIds
        ensures exists m :: 0 <= m < |mappings| && mappings[m].libraryId == id
      {
        assert id in required;
        var m :| 0 <= m < |mappedIds| && mappedIds[m] == id;
        assert mappings[m].libraryId == id;
      }
    } else {
      var id :| id in required && id !in mappedIds;
      var k :| 0 <= k < |agencies| && id in agencies[k].folioLibraryIds;
      forall m | 0 <= m < |mappings| ensures mappings[m].libraryId != id {
        assert mappedIds[m] == mappings[m].libraryId;
      }
    }
  }

  /** Extra mappings never turn a passing library check into a failing one: any list of mappings
      that holds every mapping of a passing list passes too. */
  lemma ExtraMappingsKeepLibrariesValid(
    answers: CentralServerAnswers, mappings: seq<LibraryMapping>, more: seq<LibraryMapping>)
    requires ValidateLibraryMappings(answers, mappings) == Ok(Valid)
    requires forall m :: m in mappings ==> m in more
    ensures ValidateLibraryMappings(answers, more) == Ok(Valid)
  {
    var agencies := answers.localAgencies.value;
    var before := MappedLibraryIds(mappings);
    var after := MappedLibraryIds(more);
    forall id | id in FolioLibraryIds(agencies) ensures id in after {
      var k :| 0 <= k < |before| && before[k] == id;
      assert mappings[k] in more;
      var j :| 0 <= j < |more| && more[j] == mappings[k];
      assert after[j] == id;
    }
  }

  /** Two required libraries L1, L2: mappings of L1, L2 and L3 pass; a mapping of L1 alone fails. */
  lemma TwoLibrariesExample(answers: CentralServerAnswers)
    requires answers.localAgencies == Ok([LocalAgency("a1", [1]), LocalAgency("a2", [2, 1])])
    ensures ValidateLibraryMappings(answers, [LibraryMapping(1, 10), LibraryMapping(2, 10), LibraryMapping(3, 11)])
            == Ok(Valid)
    ensures ValidateLibraryMappings(answers, [LibraryMapping(1, 10)]) == Ok(Invalid)
  {
    var agencies := [LocalAgency("a1", [1]), LocalAgency("a2", [2, 1])];
    var required := FolioLibraryIds(agencies);
    assert 2 in agencies[1].folioLibraryIds;
    assert 2 in required;
    assert MappedLibraryIds([LibraryMapping(1, 10)]) == [1];
    var all := MappedLibraryIds([LibraryMapping(1, 10), LibraryMapping(2, 10), LibraryMapping(3, 11)]);
    assert all == [1, 2, 3];
    forall id | id in required ensures id in all {
      var k :| 0 <= k < |agencies| && id in agencies[k].folioLibraryIds;
    }
  }

  // ---------------------------------------------------------------------------------------
  // Locations

  /** A failing library check is the answer: the INN-Reach codes are not consulted, so any
      other answers about them, thrown or not, give the same verdict. */
  lemma LocationsNotConsultedWhenLibrariesFail(
    answers: CentralServerAnswers, mappings: seq<LibraryMapping>,
    codes: Fallible<seq<string>>, codesByIds: seq<Uuid> -> Fallible<seq<string>>)
    requires answers.libraryMappings == Ok(mappings)
    requires ValidateLibraryMappings(answers, mappings) == Ok(Invalid)
    ensures ValidateLocationMappings(answers) == Invalid
    ensures ValidateLocationMappings(answers.(innReachLocationCodes := codes, innReachLocationCodesByIds := codesByIds))
            == Invalid
  {
    var other := answers.(innReachLocationCodes := codes, innReachLocationCodesByIds := codesByIds);
    assert ValidateLibraryMappings(other, mappings) == ValidateLibraryMappings(answers, mappings);
  }

  /** The locations are VALID exactly when every call answers, every local library is mapped and
      every mapped INN-Reach location code is one the central server knows. */
  lemma LocationMappingsValidIff(answers: CentralServerAnswers)
    ensures ValidateLocationMappings(answers) == Valid
            <==> (answers.libraryMappings.Ok? && answers.localAgencies.Ok?
                  && ContainsAll(MappedLibraryIds(answers.libraryMappings.value),
                                 FolioLibraryIds(answers.localAgencies.value))
                  && answers.innReachLocationCodes.Ok?
                  && var codes := answers.innReachLocationCodesByIds(
                       MappedInnReachLocationIds(answers.libraryMappings.value));
                     codes.Ok? && forall c :: c in codes.value ==> c in answers.innReachLocationCodes.value)
  {
  }

  /** Fail-closed: any call that throws makes the location validation INVALID. */
  lemma LocationMappingsFailClosed(answers: CentralServerAnswers)
    ensures answers.libraryMappings.Threw? ==> ValidateLocationMappings(answers) == Invalid
    ensures answers.localAgencies.Threw? ==> ValidateLocationMappings(answers) == Invalid
    ensures answers.innReachLocationCodes.Threw? ==> ValidateLocationMappings(answers) == Invalid
    ensures answers.libraryMappings.Ok?
            && answers.innReachLocationCodesByIds(MappedInnReachLocationIds(answers.libraryMappings.value)).Threw?
            ==> ValidateLocationMappings(answers) == Invalid
  {
  }

  /** Fail-closed: a thrown call makes the material-type validation INVALID. */
  lemma TypeMappingsFailClosed(answers: CentralServerAnswers)
    ensures answers.materialTypeIds.Threw? ==> ValidateTypeMappings(answers) == Invalid
    ensures answers.materialTypeIds.Ok? && answers.countByTypeIds(answers.materialTypeIds.value).Threw?
            ==> ValidateTypeMappings(answers) == Invalid
  {
  }
}
