/**
 * The older form-posting variant (epipearl/endpoints/admin_webui.py): it
 * reports a failed check as a status dictionary instead of raising, and its
 * banner scraper only logs unexpected exceptions.
 */
module AdminWebUi {
  import opened Errors
  import opened Html
  import opened Http
  import WebUiScrape
  import WebUiConfig

  /** `{'status_code': ..., 'error_msg': ..., 'response': None}` */
  datatype StatusDict = StatusDict(statusCode: int, errorMsg: string)

  /** `_scrape_error`: both containers, with unexpected exceptions only logged. */
  function LegacyScrapeError(doc: Tag): seq<WebUiScrape.Banner>
  {
    WebUiScrape.ScrapeError(doc, WebUiScrape.LogOnly)
  }

  /**
   * The legacy scraper keeps the entries in container order: the warning
   * entries come first and are all warnings, and every later entry is an
   * error.
   */
  lemma LegacyScrapeCategories(doc: Tag)
    ensures var w := WebUiScrape.BannerEntries(FindAllByClass(doc, "div", WebUiScrape.WarningClass), true, WebUiScrape.LogOnly);
            var r := LegacyScrapeError(doc);
            |w| <= |r| && r[..|w|] == w &&
            (forall i :: 0 <= i < |w| ==> r[i].cat == WebUiScrape.Warning) &&
            (forall i :: |w| <= i < |r| ==> r[i].cat == WebUiScrape.Error)
  {
    WebUiScrape.ContainerEntries(FindAllByClass(doc, "div", WebUiScrape.WarningClass), true, WebUiScrape.LogOnly);
    WebUiScrape.ScrapeErrorOrder(doc, WebUiScrape.LogOnly);
  }

  /** The check loop: the first check without a matching tag is reported with status 400. */
  function LegacyChecks(doc: Tag, checks: seq<WebUiConfig.CheckSpec>): (r: Outcome<StatusDict>)
    ensures r.Ok? ==> r.value.statusCode == 200 || r.value.statusCode == 400
    ensures r == Ok(StatusDict(200, "")) <==> forall i :: 0 <= i < |checks| ==> WebUiConfig.Found(doc, checks[i].check)
  {
    if checks == [] then Ok(StatusDict(200, ""))
    else match WebUiConfig.FindAll(checks[0].check, Descendants(doc))
      case Raise(e) => Raise(e)
      case Ok(tags) =>
        if tags == [] then Ok(StatusDict(400, checks[0].emsg))
        else
          assert forall i :: 1 <= i < |checks| ==> checks[i] == checks[1..][i - 1];
          LegacyChecks(doc, checks[1..])
  }

  /** The first check not found is the one reported; later checks are not run. */
  lemma {:induction false} LegacyFirstFailing(doc: Tag, checks: seq<WebUiConfig.CheckSpec>, k: int)
    requires 0 <= k < |checks|
    requires forall i :: 0 <= i < k ==> WebUiConfig.Found(doc, checks[i].check)
    requires WebUiConfig.FindAll(checks[k].check, Descendants(doc)) == Ok([])
    ensures LegacyChecks(doc, checks) == Ok(StatusDict(400, checks[k].emsg))
  {
    if k > 0 {
      assert forall i :: 0 <= i < k - 1 ==> checks[1..][i] == checks[i + 1];
      LegacyFirstFailing(doc, checks[1..], k - 1);
    }
  }

  /** The check loop, as the source runs it. */
  method VerifyLegacy(doc: Tag, checks: seq<WebUiConfig.CheckSpec>) returns (r: Outcome<StatusDict>)
    ensures r == LegacyChecks(doc, checks)
  {
    var i := 0;
    while i < |checks|
      invariant 0 <= i <= |checks|
      invariant LegacyChecks(doc, checks) == LegacyChecks(doc, checks[i..])
    {
      var tags := WebUiConfig.FindAll(checks[i].check, Descendants(doc));
      if tags.Raise? {
        return Raise(tags.exc);
      }
      if tags.value == [] {
        return Ok(StatusDict(400, checks[i].emsg));
      }
      assert checks[i..][1..] == checks[i + 1..];
      i := i + 1;
    }
    return Ok(StatusDict(200, ""));
  }

  /** The form post the legacy calls send: no extra headers. */
  function LegacyRequest(path: string, params: map<string, string>): Request
  {
    Request(POST, path, Form(params), map[])
  }

  /**
   * What the legacy posts return or raise for the device's reply. An
   * HTTPError reaches a handler that reads the unassigned response, so it
   * surfaces as UnboundLocalError; other transport failures become
   * RequestsError with `transportMsg`.
   */
  function LegacyOutcome(transportMsg: string, checks: seq<WebUiConfig.CheckSpec>, reply: Reply): Outcome<StatusDict>
  {
    match RaiseForStatus(reply)
    case Raise(e) =>
      if e.HTTPError? then Raise(UnboundLocalError("r")) else Fail(RequestsError(transportMsg))
    case Ok(r) =>
      var banners := LegacyScrapeError(r.doc);
      if |banners| > 0 then Fail(SettingConfigError(WebUiConfig.BannerText(banners)))
      else LegacyChecks(r.doc, checks)
  }

  /** `AdminWebUi.configuration` */
  method Configuration(url: string, path: string, params: map<string, string>,
                       checks: seq<WebUiConfig.CheckSpec>, device: Request -> Reply)
    returns (out: Outcome<StatusDict>)
    ensures out == LegacyOutcome("failed to call " + url + "/" + path, checks, device(LegacyRequest(path, params)))
  {
    var r := RaiseForStatus(device(LegacyRequest(path, params)));
    if r.Raise? {
      if r.exc.HTTPError? {
        return Raise(UnboundLocalError("r"));
      }
      var msg := "failed to call " + url + "/" + path;
      return Fail(RequestsError(msg));
    }
    var banners := LegacyScrapeError(r.value.doc);
    if |banners| > 0 {
      return Fail(SettingConfigError(WebUiConfig.BannerText(banners)));
    }
    out := VerifyLegacy(r.value.doc, checks);
  }

  /**
   * No status test is made on a response the transport lets through: a
   * 3xx page is judged exactly like a 200 page with the same body.
   */
  lemma LegacyIgnoresStatus(transportMsg: string, checks: seq<WebUiConfig.CheckSpec>, r: Response, status: int)
    requires !(400 <= r.status < 600) && !(400 <= status < 600)
    ensures LegacyOutcome(transportMsg, checks, Delivered(r)) ==
            LegacyOutcome(transportMsg, checks, Delivered(r.(status := status)))
  {
  }

  /** With no banners, success is every check found, and the result is `{200, ''}`. */
  lemma LegacySuccess(transportMsg: string, checks: seq<WebUiConfig.CheckSpec>, r: Response)
    requires !(400 <= r.status < 600)
    requires LegacyScrapeError(r.doc) == []
    ensures LegacyOutcome(transportMsg, checks, Delivered(r)) == Ok(StatusDict(200, "")) <==>
              forall i :: 0 <= i < |checks| ==> WebUiConfig.Found(r.doc, checks[i].check)
  {
  }

  /** Banners raise SettingConfigError with exactly the joined messages (no prefix). */
  lemma LegacyBanners(transportMsg: string, checks: seq<WebUiConfig.CheckSpec>, r: Response)
    requires !(400 <= r.status < 600)
    requires |LegacyScrapeError(r.doc)| > 0
    ensures LegacyOutcome(transportMsg, checks, Delivered(r)) ==
              Fail(SettingConfigError(WebUiConfig.BannerText(LegacyScrapeError(r.doc))))
  {
  }

  /** A transport failure becomes RequestsError with the call's message. */
  lemma LegacyTransportFailure(transportMsg: string, checks: seq<WebUiConfig.CheckSpec>, reason: string)
    ensures LegacyOutcome(transportMsg, checks, TransportFailed(reason)) == Fail(RequestsError(transportMsg))
  {
  }

  /** An HTTP error status surfaces as UnboundLocalError, never as a status dictionary. */
  lemma LegacyHttpError(transportMsg: string, checks: seq<WebUiConfig.CheckSpec>, r: Response)
    requires 400 <= r.status < 600
    ensures LegacyOutcome(transportMsg, checks, Delivered(r)) == Raise(UnboundLocalError("r"))
  {
  }
}
