/**
 * JobSettingService: the job setting table keyed by job name, with a lookup
 * and two upserts that stamp the audit fields. The created-by/created-date
 * pair is written once, when the stored row has no created date yet.
 */
module JobSettingService {
  import opened Wrappers
  import opened Domain

  /** The auditor recorded when the caller names none. */
  const DefaultAuditor: string := "SYSTEM"

  /** `new JobSetting()` once its job name is set: every other column null. */
  function NewSetting(jobName: string): JobSetting {
    JobSetting(jobName, None, None, None, None, None, None, None)
  }

  class JobSettingService {
    var settings: map<string, JobSetting>

    /** Every row is stored under its own job name. */
    ghost predicate Valid()
      reads this
    {
      forall k :: k in settings ==> settings[k].jobName == k
    }

    constructor ()
      ensures Valid() && settings == map[]
    {
      settings := map[];
    }

    /** findByJobName: the stored row under that name (its DTO copy), or empty. */
    function FindByJobName(jobName: string): (r: Option<JobSetting>)
      reads this
      ensures r.Some? <==> jobName in settings
      ensures r.Some? ==> r.value == settings[jobName]
    {
      if jobName in settings then Some(settings[jobName]) else None
    }

    /**
     * saveOrUpdate: the dto's description, status and params are stored
     * under its job name; updatedBy defaults to SYSTEM; the creation stamp is
     * kept if the row has one and set otherwise. No other row changes.
     */
    method SaveOrUpdate(dto: JobSetting, now: Instant) returns (saved: JobSetting)
      requires Valid()
      modifies this
      ensures Valid()
      ensures settings == old(settings)[dto.jobName := saved]
      ensures FindByJobName(dto.jobName) == Some(saved)
      ensures saved.jobName == dto.jobName && saved.description == dto.description
      ensures saved.status == dto.status && saved.params == dto.params
      ensures saved.updatedBy == Some(dto.updatedBy.GetOr(DefaultAuditor)) && saved.updatedDate == Some(now)
      ensures var prior := old(FindByJobName(dto.jobName));
              if prior.Some? && prior.value.createdDate.Some? then
                saved.createdDate == prior.value.createdDate && saved.createdBy == prior.value.createdBy
              else
                saved.createdDate == Some(now) && saved.createdBy == Some(dto.createdBy.GetOr(DefaultAuditor))
    {
      var setting := FindByJobName(dto.jobName).GetOr(NewSetting(dto.jobName));
      setting := setting.(jobName := dto.jobName);
      setting := setting.(description := dto.description);
      setting := setting.(status := dto.status);
      setting := setting.(params := dto.params);
      setting := setting.(updatedBy := Some(dto.updatedBy.GetOr(DefaultAuditor)));
      setting := setting.(updatedDate := Some(now));
      if setting.createdDate.None? {
        setting := setting.(createdDate := Some(now));
        setting := setting.(createdBy := Some(dto.createdBy.GetOr(DefaultAuditor)));
      }
      settings := settings[dto.jobName := setting];
      return setting;
    }

    /**
     * updateParams: only params and the update stamp change on an existing
     * row; a row it creates has every other column null, its status included.
     */
    method UpdateParams(jobName: string, params: Option<string>, updatedBy: Option<string>, now: Instant)
      returns (saved: JobSetting)
      requires Valid()
      modifies this
      ensures Valid()
      ensures settings == old(settings)[jobName := saved]
      ensures FindByJobName(jobName) == Some(saved)
      ensures saved.jobName == jobName && saved.params == params
      ensures saved.updatedBy == Some(updatedBy.GetOr(DefaultAuditor)) && saved.updatedDate == Some(now)
      ensures var prior := old(FindByJobName(jobName));
              && (prior.Some? ==> saved.description == prior.value.description && saved.status == prior.value.status)
              && (prior.None? ==> saved.description.None? && saved.status.None?)
              && if prior.Some? && prior.value.createdDate.Some? then
                   saved.createdDate == prior.value.createdDate && saved.createdBy == prior.value.createdBy
                 else
                   saved.createdDate == Some(now) && saved.createdBy == Some(updatedBy.GetOr(DefaultAuditor))
    {
      var setting := FindByJobName(jobName).GetOr(NewSetting(jobName));
      setting := setting.(jobName := jobName);
      setting := setting.(params := params);
      setting := setting.(updatedBy := Some(updatedBy.GetOr(DefaultAuditor)));
      setting := setting.(updatedDate := Some(now));
      if setting.createdDate.None? {
        setting := setting.(createdDate := Some(now));
        setting := setting.(createdBy := Some(updatedBy.GetOr(DefaultAuditor)));
      }
      settings := settings[jobName := setting];
      return setting;
    }
  }
}
