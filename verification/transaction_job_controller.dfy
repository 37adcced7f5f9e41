/**
 * TransactionJobController: the two handlers that change the transaction
 * step's page size. They validate the request's pageSize, build the params
 * JSON `{"pageSize": n}` and store it in the job setting of
 * TRANSACTION_PROCESSING_STEP.
 *
 * A request body is the map Jackson makes of the JSON; a JSON number arrives
 * with the value its intValue() gives and the text its toString() gives.
 */
module TransactionJobController {
  import opened Wrappers
  import opened Domain
  import opened JavaText
  import opened JobSettingService

  const JobName: string := "TRANSACTION_PROCESSING_STEP"
  const DefaultDescription: string := "Transaction processing step"
  const DefaultStatus: int := 1
  const ApiAuditor: string := "API"

  /**
   * The creation stamps of a stored row: kept from the prior row when it had a
   * creation date, otherwise set to now and the given auditor.
   */
  predicate CreationStamped(prior: Option<JobSetting>, row: JobSetting, creator: string, now: Instant) {
    if prior.Some? && prior.value.createdDate.Some? then
      row.createdDate == prior.value.createdDate && row.createdBy == prior.value.createdBy
    else
      row.createdDate == Some(now) && row.createdBy == Some(creator)
  }

  /** A value of the request body. */
  datatype RequestValue =
    | JsonNull
    | NumberValue(intValue: int, text: string)
    | StringValue(s: string)
    | OtherValue(text: string)   // a boolean, list or object

  type Request = map<string, RequestValue>

  /** Map.get: null for a missing key and for a JSON null. */
  function Get(request: Request, key: string): Option<RequestValue> {
    if key in request && request[key] != JsonNull then Some(request[key]) else None
  }

  /** Object.toString of a request value. */
  function ValueText(v: RequestValue): string {
    match v
    case JsonNull => "null"
    case NumberValue(_, text) => text
    case StringValue(s) => s
    case OtherValue(text) => text
  }

  /** The message of the NumberFormatException Integer.parseInt throws. */
  function NumberFormatMessage(s: string): string {
    "For input string: \"" + s + "\""
  }

  /** How the pageSize of a request fares: accepted, rejected with a 400, or failing to parse (a 500). */
  datatype PageSizeCheck =
    | Accepted(pageSize: int)
    | Rejected(error: string)
    | Unparsable(message: string)

  /**
   * The pageSize validation both handlers share: it must be present, a number
   * or a string Integer.parseInt accepts, and greater than 0.
   */
  function CheckPageSize(request: Request): (r: PageSizeCheck)
    ensures var v := Get(request, "pageSize");
            && (v.None? <==> r == Rejected("pageSize is required"))
            && (r == Rejected("pageSize must be a number") <==> v.Some? && v.value.OtherValue?)
            && (r.Unparsable? <==> v.Some? && v.value.StringValue? && ParseInt(v.value.s).None?)
            && (r.Unparsable? ==> r.message == NumberFormatMessage(v.value.s))
            && (r.Accepted? ==>
                  && r.pageSize > 0 && v.Some?
                  && ((v.value.NumberValue? && v.value.intValue == r.pageSize) ||
                      (v.value.StringValue? && ParseInt(v.value.s) == Some(r.pageSize))))
            && (v.Some? && v.value.NumberValue? && v.value.intValue > 0 ==> r == Accepted(v.value.intValue))
            && (v.Some? && v.value.StringValue? && ParseInt(v.value.s).Some? && ParseInt(v.value.s).value > 0 ==>
                 r == Accepted(ParseInt(v.value.s).value))
  {
    var value := Get(request, "pageSize");
    if value.None? then Rejected("pageSize is required")
    else
      var parsed := match value.value
        case NumberValue(i, _) => Ok(i)
        case StringValue(s) => if ParseInt(s).Some? then Ok(ParseInt(s).value) else Err(Unparsable(NumberFormatMessage(s)))
        case _ => Err(Rejected("pageSize must be a number"));
      if parsed.Err? then parsed.error
      else if parsed.value <= 0 then Rejected("pageSize must be greater than 0")
      else Accepted(parsed.value)
  }

  /** String.format("{\"pageSize\": %d}", n). */
  function ParamsText(n: int): string {
    "{\"pageSize\": " + IntToString(n) + "}"
  }

  /** The params string holds the page size as its only value, and it parses back to the same int. */
  lemma ParamsTextCarriesPageSize(n: int)
    requires IsInt32(n)
    ensures var t := ParamsText(n);
            && |t| > 14 && t[..13] == "{\"pageSize\": " && t[|t| - 1] == '}'
            && ParseInt(t[13..|t| - 1]) == Some(n)
  {
    var t := ParamsText(n);
    assert t[13..|t| - 1] == IntToString(n);
    ParseIntOfIntToString(n);
  }

  /** A response: its status code and the values of its body that vary. */
  datatype Response =
    | PageSizeUpdated(pageSize: int)
    | ConfigSaved(pageSize: int, description: string, status: int)
    | BadRequest(error: string)
    | ServerError(error: string)

  function HttpStatus(r: Response): int {
    match r
    case PageSizeUpdated(_) => 200
    case ConfigSaved(_, _, _) => 200
    case BadRequest(_) => 400
    case ServerError(_) => 500
  }

  /** e.getMessage() in string concatenation. */
  function MessageText(message: Option<string>): string {
    message.GetOr("null")
  }

  /**
   * PUT /config/page-size. A rejected page size answers 400 and a string
   * that does not parse answers 500, neither touching the settings; an
   * accepted one is stored as params by the API, unless the store throws
   * (serviceFault), which answers 500 and changes nothing.
   */
  method UpdatePageSize(service: JobSettingService, request: Request, now: Instant, serviceFault: Option<Throwable>)
    returns (response: Response)
    requires service.Valid()
    modifies service
    ensures service.Valid()
    ensures var check := CheckPageSize(request);
            if check.Rejected? then response == BadRequest(check.error) && service.settings == old(service.settings)
            else if check.Unparsable? then
              response == ServerError("Failed to update pageSize: " + check.message) && service.settings == old(service.settings)
            else if serviceFault.Some? then
              response == ServerError("Failed to update pageSize: " + MessageText(serviceFault.value.message))
              && service.settings == old(service.settings)
            else
              && response == PageSizeUpdated(check.pageSize)
              && JobName in service.settings
              && service.settings == old(service.settings)[JobName := service.settings[JobName]]
              && service.settings[JobName].params == Some(ParamsText(check.pageSize))
              && service.settings[JobName].updatedBy == Some(ApiAuditor)
    ensures CheckPageSize(request).Accepted? && serviceFault.None? ==>
              var prior := old(service.FindByJobName(JobName));
              var row := service.settings[JobName];
              && row.jobName == JobName && row.updatedDate == Some(now)
              && (prior.Some? ==> row.description == prior.value.description && row.status == prior.value.status)
              && (prior.None? ==> row.description.None? && row.status.None?)
              && CreationStamped(prior, row, ApiAuditor, now)
  {
    var check := CheckPageSize(request);
    if check.Rejected? {
      return BadRequest(check.error);
    }
    if check.Unparsable? {
      return ServerError("Failed to update pageSize: " + check.message);
    }
    var params := ParamsText(check.pageSize);
    if serviceFault.Some? {
      return ServerError("Failed to update pageSize: " + MessageText(serviceFault.value.message));
    }
    var _ := service.UpdateParams(JobName, Some(params), Some(ApiAuditor), now);
    return PageSizeUpdated(check.pageSize);
  }

  /** The description of a config request: its toString, or the default. */
  function DescriptionOf(request: Request): string {
    if Get(request, "description").Some? then ValueText(Get(request, "description").value) else DefaultDescription
  }

  /** The status of a config request: a number's intValue, or 1. */
  function StatusOf(request: Request): int {
    if Get(request, "status").Some? && Get(request, "status").value.NumberValue? then Get(request, "status").value.intValue
    else DefaultStatus
  }

  /**
   * POST /config. The same validation; then the whole setting is upserted
   * with the params, the description (default "Transaction processing
   * step") and the status (1 unless the request gives a number).
   */
  method CreateOrUpdateConfig(service: JobSettingService, request: Request, now: Instant, serviceFault: Option<Throwable>)
    returns (response: Response)
    requires service.Valid()
    modifies service
    ensures service.Valid()
    ensures var check := CheckPageSize(request);
            if check.Rejected? then response == BadRequest(check.error) && service.settings == old(service.settings)
            else if check.Unparsable? then
              response == ServerError("Failed to create/update config: " + check.message) && service.settings == old(service.settings)
            else if serviceFault.Some? then
              response == ServerError("Failed to create/update config: " + MessageText(serviceFault.value.message))
              && service.settings == old(service.settings)
            else
              && response == ConfigSaved(check.pageSize, DescriptionOf(request), StatusOf(request))
              && JobName in service.settings
              && service.settings == old(service.settings)[JobName := service.settings[JobName]]
              && service.settings[JobName].params == Some(ParamsText(check.pageSize))
              && service.settings[JobName].description == Some(DescriptionOf(request))
              && service.settings[JobName].status == Some(StatusOf(request))
              && service.settings[JobName].updatedBy == Some(ApiAuditor)
    ensures CheckPageSize(request).Accepted? && serviceFault.None? ==>
              var row := service.settings[JobName];
              && row.jobName == JobName && row.updatedDate == Some(now)
              && CreationStamped(old(service.FindByJobName(JobName)), row, DefaultAuditor, now)
  {
    var check := CheckPageSize(request);
    if check.Rejected? {
      return BadRequest(check.error);
    }
    if check.Unparsable? {
      return ServerError("Failed to create/update config: " + check.message);
    }
    var params := ParamsText(check.pageSize);
    var description := DescriptionOf(request);
    var status := StatusOf(request);
    var dto := JobSetting(JobName, Some(description), Some(status), Some(params), None, None, Some(ApiAuditor), None);
    if serviceFault.Some? {
      return ServerError("Failed to create/update config: " + MessageText(serviceFault.value.message));
    }
    var _ := service.SaveOrUpdate(dto, now);
    return ConfigSaved(check.pageSize, description, status);
  }
}
