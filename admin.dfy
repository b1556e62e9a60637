/**
 * The key/value HTTP API and the older date-and-time form
 * (epipearl/endpoints/admin.py).
 */
module Admin {
  import opened Errors
  import opened Http
  import WebUiConfig
  import AdminWebUi

  /** `{'status_code': ..., 'response_text': ...}` */
  datatype AdminReply = AdminReply(statusCode: int, responseText: string)

  const GetParamsScript := "get_params.cgi"
  const SetParamsScript := "set_params.cgi"

  /** The GET both calls send to a channel's cgi `script`, with the params as the query and no extra headers. */
  function ParamsRequest(channel: string, script: string, params: map<string, string>): (req: Request)
    ensures req.verb == GET && req.payload == Query(params) && req.extraHeaders == map[]
    ensures req.path == "admin/channel" + channel + "/" + script
  {
    Request(GET, "admin/channel" + channel + "/" + script, Query(params), map[])
  }

  /** `Admin.get_params`: the status and the body of the answer. */
  function GetParams(reply: Reply): (out: Outcome<AdminReply>)
    ensures out.Ok? <==> RaiseForStatus(reply).Ok?
    ensures out.Ok? ==> out.value == AdminReply(reply.response.status, reply.response.text)
    ensures reply.TransportFailed? ==> out == Raise(RequestException(reply.reason))
    ensures reply.Delivered? && 400 <= reply.response.status < 600 ==> out == Raise(HTTPError(reply.response.status))
  {
    match RaiseForStatus(reply)
    case Raise(e) => Raise(e)
    case Ok(r) => Ok(AdminReply(r.status, r.text))
  }

  /** `Admin.set_params`: the status, and always an empty text. */
  function SetParams(reply: Reply): (out: Outcome<AdminReply>)
    ensures out.Ok? <==> RaiseForStatus(reply).Ok?
    ensures out.Ok? ==> out.value == AdminReply(reply.response.status, "")
    ensures reply.TransportFailed? ==> out == Raise(RequestException(reply.reason))
    ensures reply.Delivered? && 400 <= reply.response.status < 600 ==> out == Raise(HTTPError(reply.response.status))
  {
    match RaiseForStatus(reply)
    case Raise(e) => Raise(e)
    case Ok(r) => Ok(AdminReply(r.status, ""))
  }

  const TimeSyncPath := "admin/timesynccfg"

  /** The message of a transport failure, with the path as the source spells it. */
  function DateAndTimeTransportMsg(url: string): string
  {
    "set_date_and_time() failed to call " + url + "/admmin/timesynccfg"
  }

  /** `AdminWebUi.set_date_and_time`: the legacy post to the time settings page. */
  method SetDateAndTime(url: string, params: map<string, string>, checks: seq<WebUiConfig.CheckSpec>,
                        device: Request -> Reply)
    returns (out: Outcome<AdminWebUi.StatusDict>)
    ensures out == AdminWebUi.LegacyOutcome(DateAndTimeTransportMsg(url), checks,
                                            device(AdminWebUi.LegacyRequest(TimeSyncPath, params)))
  {
    var r := RaiseForStatus(device(AdminWebUi.LegacyRequest(TimeSyncPath, params)));
    if r.Raise? {
      if r.exc.HTTPError? {
        return Raise(UnboundLocalError("r"));
      }
      var msg := "set_date_and_time() failed to call " + url;
      msg := msg + "/admmin/timesynccfg";
      return Fail(RequestsError(msg));
    }
    var banners := AdminWebUi.LegacyScrapeError(r.value.doc);
    if |banners| > 0 {
      var msgs := WebUiConfig.BannerText(banners);
      return Fail(SettingConfigError(msgs));
    }
    out := AdminWebUi.VerifyLegacy(r.value.doc, checks);
  }
}
