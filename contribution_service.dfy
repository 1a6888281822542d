/** `getCurrent`: the current contribution record of a central server, annotated with freshly
    computed mapping-validation verdicts. */
module ContributionService {
  import opened Calls
  import opened Domain
  import opened MappingValidation

  /** The contribution as it is returned: the record and the two verdicts, which the mapper
      leaves unset and `getCurrent` then sets in place. */
  class ContributionDto {
    var contribution: Contribution
    var itemTypeMappingStatus: Option<MappingValidationStatus>
    var locationsMappingStatus: Option<MappingValidationStatus>

    /** `mapper.toDTO`: the record's fields, no verdicts yet. */
    constructor FromEntity(entity: Contribution)
      ensures contribution == entity
      ensures itemTypeMappingStatus == None && locationsMappingStatus == None
    {
      contribution := entity;
      itemTypeMappingStatus := None;
      locationsMappingStatus := None;
    }

    method SetItemTypeMappingStatus(status: MappingValidationStatus)
      modifies this`itemTypeMappingStatus
      ensures itemTypeMappingStatus == Some(status)
    {
      itemTypeMappingStatus := Some(status);
    }

    method SetLocationsMappingStatus(status: MappingValidationStatus)
      modifies this`locationsMappingStatus
      ensures locationsMappingStatus == Some(status)
    {
      locationsMappingStatus := Some(status);
    }
  }

  /** `getCurrent`: the stored record, or an empty one when none is stored, with both verdicts set
      from the validators; a failing validator shows as INVALID, never as a failed call. */
  method GetCurrent(stored: Option<Contribution>, answers: CentralServerAnswers) returns (dto: ContributionDto)
    ensures fresh(dto)
    ensures dto.contribution == stored.GetOr(NewContribution())
    ensures dto.itemTypeMappingStatus == Some(ValidateTypeMappings(answers))
    ensures dto.locationsMappingStatus == Some(ValidateLocationMappings(answers))
  {
    var entity := stored.GetOr(NewContribution());
    dto := new ContributionDto.FromEntity(entity);
    dto.SetItemTypeMappingStatus(ValidateTypeMappings(answers));
    dto.SetLocationsMappingStatus(ValidateLocationMappings(answers));
  }
}
