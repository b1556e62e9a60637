/**
 * The submit/verify protocol of the web UI (epipearl/endpoints/webui_config.py):
 * a form is posted, and the page the device sends back is searched for
 * banners and for the tags that show each setting took effect.
 */
module WebUiConfig {
  import opened Wrappers
  import opened Errors
  import opened Html
  import opened Http
  import PyStr
  import WebUiScrape

  /**
   * The tag predicates the settings calls search the returned page with;
   * each case is one of the closure factories of the source.
   */
  datatype Check =
    | CheckboxChecked(id: string)             // check_singlevalue_checkbox
    | CheckboxUnchecked(id: string)           // check_singlevalue_checkbox_disabled
    | SelectedValue(value: string)            // check_singlevalue_select
    | CheckedNameValue(name: string, value: string)  // check_multivalue_select
    | InputIdValue(id: string, value: string)        // check_input_id_value
    | InputNameValue(name: string, value: string)    // check_input_name_value
    | TextareaIdValue(id: string, value: string)     // check_textarea_id_value
    | GuardedIdValue(id: string, value: string)      // the rtmp closures of webui_channel.py
    | TextContains(fragment: string)                 // the deletion-message closure of webui_channel.py

  /** One entry of `check_success`: the message to raise, and the predicate. */
  datatype CheckSpec = CheckSpec(emsg: string, check: Check)

  /** `tag['value'] == v`: a missing `value` raises KeyError. */
  function ValueIs(t: Tag, v: string): (r: Outcome<bool>)
    ensures r.Raise? <==> "value" !in t.attrs
    ensures r.Raise? ==> r.exc == KeyError("value")
    ensures r == Ok(true) <==> AttrIs(t, "value", v)
  {
    if "value" in t.attrs then Ok(t.attrs["value"] == v) else Raise(KeyError("value"))
  }

  /** Evaluating a check on one tag; the closures that read `value` unguarded can raise. */
  function Holds(c: Check, t: Tag): (r: Outcome<bool>)
    ensures r.Raise? ==> r.exc == KeyError("value") && "value" !in t.attrs
    ensures r.Raise? <==>
              "value" !in t.attrs &&
              ((c.CheckedNameValue? && "checked" in t.attrs && AttrIs(t, "name", c.name)) ||
               (c.InputIdValue? && AttrIs(t, "id", c.id)) ||
               (c.InputNameValue? && AttrIs(t, "name", c.name)))
    ensures (c.InputIdValue? || c.GuardedIdValue?) && r == Ok(true) ==> AttrIs(t, "id", c.id) && AttrIs(t, "value", c.value)
    ensures c.InputNameValue? && r == Ok(true) ==> AttrIs(t, "name", c.name) && AttrIs(t, "value", c.value)
  {
    match c
    case CheckboxChecked(id) => Ok(AttrIs(t, "id", id) && "checked" in t.attrs)
    case CheckboxUnchecked(id) => Ok(AttrIs(t, "id", id) && "checked" !in t.attrs)
    case SelectedValue(v) => Ok("selected" in t.attrs && AttrIs(t, "value", v))
    case CheckedNameValue(name, v) =>
      if "checked" in t.attrs && AttrIs(t, "name", name) then ValueIs(t, v) else Ok(false)
    case InputIdValue(id, v) => if AttrIs(t, "id", id) then ValueIs(t, v) else Ok(false)
    case InputNameValue(name, v) => if AttrIs(t, "name", name) then ValueIs(t, v) else Ok(false)
    case TextareaIdValue(id, v) => Ok(AttrIs(t, "id", id) && StringOf(t) == Some(v))
    case GuardedIdValue(id, v) => Ok(AttrIs(t, "id", id) && AttrIs(t, "value", v))
    case TextContains(fragment) => Ok(PyStr.Contains(GetText(t), fragment))
  }

  /** The checked and the unchecked checkbox tests agree on the id and never both hold. */
  lemma CheckboxTestsExclusive(id: string, t: Tag)
    ensures Holds(CheckboxChecked(id), t).Ok? && Holds(CheckboxUnchecked(id), t).Ok?
    ensures !(Holds(CheckboxChecked(id), t).value && Holds(CheckboxUnchecked(id), t).value)
    ensures Holds(CheckboxChecked(id), t).value || Holds(CheckboxUnchecked(id), t).value <==> AttrIs(t, "id", id)
  {
  }

  /**
   * `soup.find_all(func)` over the tags of the page: every tag is tested,
   * and the first one on which the predicate raises ends the search.
   */
  function FindAll(c: Check, tags: seq<Tag>): (r: Outcome<seq<Tag>>)
    ensures r.Ok? ==> forall i :: 0 <= i < |tags| ==> Holds(c, tags[i]).Ok?
    ensures r.Ok? ==> forall t :: t in r.value ==> t in tags && Holds(c, t) == Ok(true)
    ensures r.Ok? ==> (r.value == [] <==> forall i :: 0 <= i < |tags| ==> Holds(c, tags[i]) == Ok(false))
    ensures r.Raise? ==> exists i :: 0 <= i < |tags| && Holds(c, tags[i]) == Raise(r.exc)
  {
    if tags == [] then Ok([])
    else match Holds(c, tags[0])
      case Raise(e) => Raise(e)
      case Ok(b) =>
        match FindAll(c, tags[1..])
        case Raise(e) =>
          assert exists i :: 0 <= i < |tags[1..]| && Holds(c, tags[1..][i]) == Raise(e);
          var i :| 0 <= i < |tags[1..]| && Holds(c, tags[1..][i]) == Raise(e);
          assert Holds(c, tags[i + 1]) == Raise(e);
          Raise(e)
        case Ok(rest) =>
          assert forall i :: 1 <= i < |tags| ==> tags[i] == tags[1..][i - 1];
          Ok((if b then [tags[0]] else []) + rest)
  }

  /** The prefix of every message `configuration` raises after a 200. */
  function CallPrefix(url: string, path: string): string
  {
    "error from call " + url + "/" + path + " "
  }

  /** The check loop: the first check without a matching tag raises with its message. */
  function RunChecks(doc: Tag, checks: seq<CheckSpec>, prefix: string): (r: Outcome<bool>)
    ensures r.Ok? ==> r.value
    ensures r.Ok? <==> forall i :: 0 <= i < |checks| ==> Found(doc, checks[i].check)
  {
    if checks == [] then Ok(true)
    else match FindAll(checks[0].check, Descendants(doc))
      case Raise(e) => Raise(e)
      case Ok(tags) =>
        if tags == [] then Fail(SettingConfigError(prefix + "- " + checks[0].emsg))
        else
          assert forall i :: 1 <= i < |checks| ==> checks[i] == checks[1..][i - 1];
          RunChecks(doc, checks[1..], prefix)
  }

  /**
   * The only library error the check loop raises is SettingConfigError
   * carrying one check's message; anything else is what a predicate raised.
   */
  lemma {:induction false} RunChecksErrors(doc: Tag, checks: seq<CheckSpec>, prefix: string)
    ensures var r := RunChecks(doc, checks, prefix);
            r.Raise? && r.exc.Library? ==>
              exists i :: 0 <= i < |checks| && r == Fail(SettingConfigError(prefix + "- " + checks[i].emsg))
    ensures var r := RunChecks(doc, checks, prefix);
            r.Raise? && !r.exc.Library? ==> r.exc == KeyError("value")
  {
    if checks != [] {
      RunChecksErrors(doc, checks[1..], prefix);
      var r := RunChecks(doc, checks, prefix);
      var f := FindAll(checks[0].check, Descendants(doc));
      if f.Ok? && f.value != [] && r.Raise? && r.exc.Library? {
        var i :| 0 <= i < |checks[1..]| && r == Fail(SettingConfigError(prefix + "- " + checks[1..][i].emsg));
        assert checks[1..][i] == checks[i + 1];
      }
    }
  }

  /** Some tag of the page satisfies `c`, and no tag makes it raise. */
  predicate Found(doc: Tag, c: Check)
  {
    FindAll(c, Descendants(doc)).Ok? && FindAll(c, Descendants(doc)).value != []
  }

  /** A found check is witnessed by a tag of the page. */
  lemma FoundWitness(doc: Tag, c: Check)
    requires Found(doc, c)
    ensures exists t :: t in Descendants(doc) && Holds(c, t) == Ok(true)
  {
    var t := FindAll(c, Descendants(doc)).value[0];
    assert t in FindAll(c, Descendants(doc)).value;
  }

  /** Checks run in order: the first check not found decides the error, and later ones are not run. */
  lemma {:induction false} FirstFailingCheck(doc: Tag, checks: seq<CheckSpec>, prefix: string, k: int)
    requires 0 <= k < |checks|
    requires forall i :: 0 <= i < k ==> Found(doc, checks[i].check)
    requires FindAll(checks[k].check, Descendants(doc)) == Ok([])
    ensures RunChecks(doc, checks, prefix) == Fail(SettingConfigError(prefix + "- " + checks[k].emsg))
  {
    if k > 0 {
      assert forall i :: 0 <= i < k - 1 ==> checks[1..][i] == checks[i + 1];
      FirstFailingCheck(doc, checks[1..], prefix, k - 1);
    }
  }

  /** The check loop of `configuration`. */
  method VerifyChecks(doc: Tag, checks: seq<CheckSpec>, prefix: string) returns (r: Outcome<bool>)
    ensures r == RunChecks(doc, checks, prefix)
  {
    var i := 0;
    while i < |checks|
      invariant 0 <= i <= |checks|
      invariant RunChecks(doc, checks, prefix) == RunChecks(doc, checks[i..], prefix)
    {
      var tags := FindAll(checks[i].check, Descendants(doc));
      if tags.Raise? {
        return Raise(tags.exc);
      }
      if tags.value == [] {
        return Fail(SettingConfigError(prefix + "- " + checks[i].emsg));
      }
      assert checks[i..][1..] == checks[i + 1..];
      i := i + 1;
    }
    return Ok(true);
  }

  /** A form post: what the settings calls hand to `configuration`. */
  datatype Submission = Submission(path: string, params: map<string, string>, checks: seq<CheckSpec>)

  /** The request `configuration` sends: a form-encoded POST. */
  function ConfigurationRequest(s: Submission): (req: Request)
    ensures req.verb == POST && req.path == s.path && req.payload == Form(s.params)
    ensures req.extraHeaders == FormEncoded
  {
    Request(POST, s.path, Form(s.params), FormEncoded)
  }

  /** The banner messages of a page, `'\n'`-joined. */
  function BannerText(banners: seq<WebUiScrape.Banner>): string
  {
    PyStr.Join(WebUiScrape.Msgs(banners), "\n")
  }

  /** What `configuration` returns or raises for the device's reply to the post. */
  function ConfigurationOutcome(url: string, s: Submission, reply: Reply): Outcome<bool>
  {
    match RaiseForStatus(reply)
    case Raise(e) => Raise(e)
    case Ok(r) =>
      if r.status == 200 then
        var banners := WebUiScrape.ScrapeError(r.doc, WebUiScrape.SyntheticEntry);
        if |banners| > 0 then Fail(SettingConfigError(CallPrefix(url, s.path) + BannerText(banners)))
        else RunChecks(r.doc, s.checks, CallPrefix(url, s.path))
      else
        Fail(IndiscernibleResponseFromWebUiError(
          "error in call " + url + "/" + s.path + " - response status(" + PyStr.IntToString(r.status) + ")"))
  }

  /** `configuration`: post the form, then classify the page the device returns. */
  method Configuration(url: string, s: Submission, device: Request -> Reply) returns (out: Outcome<bool>)
    ensures out == ConfigurationOutcome(url, s, device(ConfigurationRequest(s)))
  {
    var reply := device(ConfigurationRequest(s));
    var r := RaiseForStatus(reply);
    if r.Raise? {
      return Raise(r.exc);
    }
    var msg := CallPrefix(url, s.path);
    if r.value.status == 200 {
      var banners := WebUiScrape.ScrapeError(r.value.doc, WebUiScrape.SyntheticEntry);
      if |banners| > 0 {
        msg := msg + BannerText(banners);
        return Fail(SettingConfigError(msg));
      }
      out := VerifyChecks(r.value.doc, s.checks, msg);
      return;
    }
    msg := "error in call " + url + "/" + s.path + " - response status(" + PyStr.IntToString(r.value.status) + ")";
    return Fail(IndiscernibleResponseFromWebUiError(msg));
  }

  /** A status other than 200 that the transport lets through names path and status, whatever the checks. */
  lemma ConfigurationNon200(url: string, s: Submission, t: Submission, r: Response)
    requires s.path == t.path
    requires r.status != 200 && !(400 <= r.status < 600)
    ensures ConfigurationOutcome(url, s, Delivered(r)) == ConfigurationOutcome(url, t, Delivered(r))
    ensures ConfigurationOutcome(url, s, Delivered(r)) ==
              Fail(IndiscernibleResponseFromWebUiError(
                "error in call " + url + "/" + s.path + " - response status(" + PyStr.IntToString(r.status) + ")"))
  {
  }

  /**
   * A 200 page with a banner raises SettingConfigError carrying every
   * banner message, whatever the checks.
   */
  lemma ConfigurationBanners(url: string, s: Submission, t: Submission, r: Response)
    requires s.path == t.path
    requires r.status == 200
    requires |WebUiScrape.ScrapeError(r.doc, WebUiScrape.SyntheticEntry)| > 0
    ensures ConfigurationOutcome(url, s, Delivered(r)) == ConfigurationOutcome(url, t, Delivered(r))
    ensures ConfigurationOutcome(url, s, Delivered(r)).Raise?
    ensures var e := ConfigurationOutcome(url, s, Delivered(r)).exc;
            e.Library? && e.error.SettingConfigError? &&
            forall b :: b in WebUiScrape.ScrapeError(r.doc, WebUiScrape.SyntheticEntry) ==> PyStr.Contains(e.error.msg, b.msg)
  {
    var banners := WebUiScrape.ScrapeError(r.doc, WebUiScrape.SyntheticEntry);
    forall b | b in banners
      ensures PyStr.Contains(CallPrefix(url, s.path) + BannerText(banners), b.msg)
    {
      var i :| 0 <= i < |banners| && banners[i] == b;
      PyStr.JoinContains(WebUiScrape.Msgs(banners), "\n", i);
      PyStr.ContainsWithin(CallPrefix(url, s.path), BannerText(banners), "", b.msg);
      assert CallPrefix(url, s.path) + BannerText(banners) + "" == CallPrefix(url, s.path) + BannerText(banners);
    }
  }

  /** Without banners, the first check not found names the error. */
  lemma ConfigurationFirstFailing(url: string, s: Submission, r: Response, k: int)
    requires r.status == 200
    requires WebUiScrape.ScrapeError(r.doc, WebUiScrape.SyntheticEntry) == []
    requires 0 <= k < |s.checks|
    requires forall i :: 0 <= i < k ==> Found(r.doc, s.checks[i].check)
    requires FindAll(s.checks[k].check, Descendants(r.doc)) == Ok([])
    ensures ConfigurationOutcome(url, s, Delivered(r)) ==
              Fail(SettingConfigError(CallPrefix(url, s.path) + "- " + s.checks[k].emsg))
  {
    FirstFailingCheck(r.doc, s.checks, CallPrefix(url, s.path), k);
  }

  /** Success is a 200 page with no banner on which every check finds a tag; the result is then True. */
  lemma ConfigurationSuccess(url: string, s: Submission, reply: Reply)
    ensures ConfigurationOutcome(url, s, reply).Ok? ==> ConfigurationOutcome(url, s, reply).value
    ensures ConfigurationOutcome(url, s, reply).Ok? <==>
              reply.Delivered? && reply.response.status == 200 &&
              WebUiScrape.ScrapeError(reply.response.doc, WebUiScrape.SyntheticEntry) == [] &&
              forall i :: 0 <= i < |s.checks| ==> Found(reply.response.doc, s.checks[i].check)
  {
  }

  /** A transport failure or a 4xx/5xx status escapes `configuration` as the HTTP library raised it. */
  lemma ConfigurationTransport(url: string, s: Submission, reply: Reply)
    requires reply.TransportFailed? || 400 <= reply.response.status < 600
    ensures ConfigurationOutcome(url, s, reply) == Raise(RaiseForStatus(reply).exc)
    ensures !ConfigurationOutcome(url, s, reply).exc.Library?
  {
  }

  // ---------------------------------------------------------------------
  // webui_configuration: fetch (or post) a page and scrape one named form
  // ---------------------------------------------------------------------

  /** `find_form`: a `form` whose name is `formName`. */
  predicate IsNamedForm(t: Tag, formName: string)
  {
    t.name == "form" && AttrIs(t, "name", formName)
  }

  function NamedForms(ts: seq<Tag>, formName: string): (r: seq<Tag>)
    ensures forall i :: 0 <= i < |r| ==> IsNamedForm(r[i], formName)
    ensures forall t :: t in ts && IsNamedForm(t, formName) ==> t in r
  {
    if ts == [] then []
    else (if IsNamedForm(ts[0], formName) then [ts[0]] else []) + NamedForms(ts[1..], formName)
  }

  /** A GET when there are no params, a form POST otherwise. */
  function WebUiRequest(path: string, params: Option<map<string, string>>): (req: Request)
    ensures req.verb == GET <==> params.None?
    ensures params.Some? ==> req.payload == Form(params.value)
    ensures req.path == path && req.extraHeaders == FormEncoded
  {
    match params
    case None => Request(GET, path, NoBody, FormEncoded)
    case Some(p) => Request(POST, path, Form(p), FormEncoded)
  }

  function VerbName(v: Verb): string
  {
    match v
    case GET => "GET"
    case POST => "POST"
  }

  /** What `webui_configuration` returns or raises for the device's reply. */
  function WebUiConfigurationOutcome(url: string, path: string, formName: string,
                                     params: Option<map<string, string>>, reply: Reply)
    : (out: Outcome<map<string, WebUiScrape.FormValue>>)
  {
    match RaiseForStatus(reply)
    case Raise(e) => Raise(e)
    case Ok(r) =>
      var msg := "error from " + VerbName(WebUiRequest(path, params).verb) + " call " + url + "/" + path + ": ";
      var banners := WebUiScrape.ScrapeError(r.doc, WebUiScrape.SyntheticEntry);
      if |banners| > 0 then Fail(SettingConfigError(msg + BannerText(banners)))
      else
        var forms := NamedForms(Descendants(r.doc), formName);
        if |forms| == 1 then Ok(WebUiScrape.FormValues(forms[0]))
        else Fail(IndiscernibleResponseFromWebUiError(
          msg + "zero or more than one form named (" + formName + ") returned!"))
  }

  /** `webui_configuration`: send the request, then scrape the one form of that name. */
  method WebUiConfiguration(url: string, path: string, formName: string,
                            params: Option<map<string, string>>, device: Request -> Reply)
    returns (out: Outcome<map<string, WebUiScrape.FormValue>>)
    ensures out == WebUiConfigurationOutcome(url, path, formName, params, device(WebUiRequest(path, params)))
  {
    var req := WebUiRequest(path, params);
    var r := RaiseForStatus(device(req));
    if r.Raise? {
      return Raise(r.exc);
    }
    var msg := "error from " + VerbName(req.verb) + " call " + url + "/" + path + ": ";
    var banners := WebUiScrape.ScrapeError(r.value.doc, WebUiScrape.SyntheticEntry);
    if |banners| > 0 {
      msg := msg + BannerText(banners);
      return Fail(SettingConfigError(msg));
    }
    var forms := NamedForms(Descendants(r.value.doc), formName);
    if |forms| == 1 {
      var values := WebUiScrape.PluckFormValues(forms[0]);
      return Ok(values);
    }
    msg := msg + "zero or more than one form named (" + formName + ") returned!";
    return Fail(IndiscernibleResponseFromWebUiError(msg));
  }

  /** The prefix of every message `webui_configuration` raises. */
  function WebUiPrefix(url: string, path: string, params: Option<map<string, string>>): string
  {
    "error from " + VerbName(WebUiRequest(path, params).verb) + " call " + url + "/" + path + ": "
  }

  /** Banners raise SettingConfigError carrying their messages, whatever status the transport lets through. */
  lemma WebUiConfigurationBanners(url: string, path: string, formName: string,
                                  params: Option<map<string, string>>, r: Response)
    requires !(400 <= r.status < 600)
    requires |WebUiScrape.ScrapeError(r.doc, WebUiScrape.SyntheticEntry)| > 0
    ensures WebUiConfigurationOutcome(url, path, formName, params, Delivered(r)) ==
              Fail(SettingConfigError(WebUiPrefix(url, path, params) +
                                      BannerText(WebUiScrape.ScrapeError(r.doc, WebUiScrape.SyntheticEntry))))
  {
  }

  /** Without banners, exactly one form of that name yields its scraped map. */
  lemma WebUiConfigurationOneForm(url: string, path: string, formName: string,
                                  params: Option<map<string, string>>, r: Response)
    requires !(400 <= r.status < 600)
    requires WebUiScrape.ScrapeError(r.doc, WebUiScrape.SyntheticEntry) == []
    requires |NamedForms(Descendants(r.doc), formName)| == 1
    ensures WebUiConfigurationOutcome(url, path, formName, params, Delivered(r)) ==
              Ok(WebUiScrape.FormValues(NamedForms(Descendants(r.doc), formName)[0]))
  {
  }

  /** Without banners, zero or several forms of that name raise IndiscernibleResponseFromWebUiError. */
  lemma WebUiConfigurationNoUniqueForm(url: string, path: string, formName: string,
                                       params: Option<map<string, string>>, r: Response)
    requires !(400 <= r.status < 600)
    requires WebUiScrape.ScrapeError(r.doc, WebUiScrape.SyntheticEntry) == []
    requires |NamedForms(Descendants(r.doc), formName)| != 1
    ensures WebUiConfigurationOutcome(url, path, formName, params, Delivered(r)) ==
              Fail(IndiscernibleResponseFromWebUiError(
                WebUiPrefix(url, path, params) + "zero or more than one form named (" + formName + ") returned!"))
  {
  }

  // ---------------------------------------------------------------------
  // The settings calls: the params and checks each one submits
  // ---------------------------------------------------------------------

  /** `set_ntp` */
  function NtpSubmission(server: string, timezone: string): Submission
  {
    Submission(
      "admin/timesynccfg",
      map["server" := server, "tz" := timezone, "fn" := "date", "rdate" := "auto",
          "rdate_proto" := "NTP", "rdate_secs" := "900", "ptp_domain" := "_DFLT"],
      [CheckSpec("timezone setting expected(" + timezone + ")", SelectedValue(timezone)),
       CheckSpec("protocol setting expected(NTP)", SelectedValue("NTP")),
       CheckSpec("expected to enable sync(auto)", CheckboxChecked("rdate_auto")),
       CheckSpec("expected ntp server(" + server + ")", InputIdValue("server", server))])
  }

  /**
   * NTP succeeds only when the page shows the timezone and NTP selected,
   * automatic sync checked and the server input holding the server sent.
   */
  lemma NtpSuccessMeans(url: string, server: string, timezone: string, reply: Reply)
    requires ConfigurationOutcome(url, NtpSubmission(server, timezone), reply).Ok?
    ensures reply.Delivered? && reply.response.status == 200
    ensures var doc := reply.response.doc;
            (exists t :: t in Descendants(doc) && "selected" in t.attrs && AttrIs(t, "value", timezone)) &&
            (exists t :: t in Descendants(doc) && "selected" in t.attrs && AttrIs(t, "value", "NTP")) &&
            (exists t :: t in Descendants(doc) && AttrIs(t, "id", "rdate_auto") && "checked" in t.attrs) &&
            (exists t :: t in Descendants(doc) && AttrIs(t, "id", "server") && AttrIs(t, "value", server))
  {
    var s := NtpSubmission(server, timezone);
    ConfigurationSuccess(url, s, reply);
    var doc := reply.response.doc;
    FoundWitness(doc, s.checks[0].check);
    FoundWitness(doc, s.checks[1].check);
    FoundWitness(doc, s.checks[2].check);
    FoundWitness(doc, s.checks[3].check);
  }

  /** `set_touchscreen`: the timeout is posted, and expected back, as `str(screen_timeout)`. */
  function TouchscreenSubmission(screenTimeout: int): (s: Submission)
    ensures "epiScreenTimeout" in s.params && s.params["epiScreenTimeout"] == PyStr.IntToString(screenTimeout)
    ensures CheckSpec("epiScreenTimeout expected(" + s.params["epiScreenTimeout"] + ")",
                      InputIdValue("epiScreenTimeout", s.params["epiScreenTimeout"])) in s.checks
  {
    var timeout := PyStr.IntToString(screenTimeout);
    Submission(
      "admin/touchscreencfg",
      map["pdf_form_id" := "fn_episcreen", "epiScreenTimeout" := timeout, "changeSettings" := "on",
          "recordControl" := "", "showVideo" := "on", "epiScreenEnable" := "on", "showInfo" := "on"],
      [CheckSpec("epiScreenEnable ON expected", CheckboxChecked("epiScreenEnable")),
       CheckSpec("showPreview ON expected", CheckboxChecked("showVideo")),
       CheckSpec("showSystemStatus ON expected", CheckboxChecked("showInfo")),
       CheckSpec("changeSettings ON expected", CheckboxChecked("changeSettings")),
       CheckSpec("recordControl OFF expected", CheckboxUnchecked("recordControl")),
       CheckSpec("epiScreenTimeout expected(" + timeout + ")", InputIdValue("epiScreenTimeout", timeout))])
  }

  /** The default screen timeout of 600 seconds is sent as "600". */
  lemma TouchscreenDefault()
    ensures TouchscreenSubmission(600).params["epiScreenTimeout"] == "600"
  {
    assert PyStr.NatToString(60) == "60";
  }

  /** `set_remote_support_and_permanent_logs` */
  function RemoteSupportSubmission(logEnabled: bool): (s: Submission)
    ensures "permanent_logs" in s.params
    ensures s.params["permanent_logs"] == "on" <==> logEnabled
    ensures !logEnabled ==> s.params["permanent_logs"] == ""
    ensures s.checks == []
  {
    var params := map["fn" := "maint", "enablessh" := "on", "tunnel" := "on",
                      "tunnelsrv" := "epiphany.epiphan.com", "tunnelport" := "30"];
    Submission(
      "admin/remotesupport.cgi",
      params["permanent_logs" := if logEnabled then "on" else ""],
      [])
  }

  /** With no checks, any 200 page without banners counts as success. */
  lemma RemoteSupportUnverified(url: string, logEnabled: bool, r: Response)
    requires r.status == 200
    requires WebUiScrape.ScrapeError(r.doc, WebUiScrape.SyntheticEntry) == []
    ensures ConfigurationOutcome(url, RemoteSupportSubmission(logEnabled), Delivered(r)) == Ok(true)
  {
  }

  /** `set_source_deinterlacing` */
  const DeinterlacingOffMsg := "deinterlacing expected to be OFF"

  function DeinterlacingSubmission(sourceName: string, enabled: bool): (s: Submission)
    ensures s.path == "admin/sources/" + sourceName
    ensures "deinterlacing" in s.params && s.params["deinterlacing"] == (if enabled then "on" else " ")
    ensures |s.checks| == 1
    ensures s.checks[0].check == (if enabled then CheckboxChecked("deinterlacing") else CheckboxUnchecked("deinterlacing"))
  {
    var params := map["pfd_form_id" := "vsource"];
    if enabled then
      Submission("admin/sources/" + sourceName, params["deinterlacing" := "on"],
                 [CheckSpec("deinterlacing expected to be ON", CheckboxChecked("deinterlacing"))])
    else
      Submission("admin/sources/" + sourceName, params["deinterlacing" := " "],
                 [CheckSpec(DeinterlacingOffMsg, CheckboxUnchecked("deinterlacing"))])
  }

  /** A tag on which `c` holds, on a page where `c` never raises, makes the search non-empty. */
  lemma {:induction false} FindAllHit(c: Check, tags: seq<Tag>, i: int)
    requires 0 <= i < |tags| && Holds(c, tags[i]) == Ok(true)
    requires forall j :: 0 <= j < |tags| ==> Holds(c, tags[j]).Ok?
    ensures FindAll(c, tags).Ok? && FindAll(c, tags).value != []
  {
    if i > 0 {
      assert forall j :: 0 <= j < |tags[1..]| ==> tags[1..][j] == tags[j + 1];
      FindAllHit(c, tags[1..], i - 1);
    }
  }

  /** On a page where `c` holds of no tag and never raises, the search is empty. */
  lemma {:induction false} FindAllMiss(c: Check, tags: seq<Tag>)
    requires forall j :: 0 <= j < |tags| ==> Holds(c, tags[j]) == Ok(false)
    ensures FindAll(c, tags) == Ok([])
  {
    if tags != [] {
      assert forall j :: 0 <= j < |tags[1..]| ==> tags[1..][j] == tags[j + 1];
      FindAllMiss(c, tags[1..]);
    }
  }

  /** A page whose `deinterlacing` tags are all checked, and which has one, confirms enabling. */
  lemma DeinterlacingOnConfirmed(url: string, source: string, r: Response, i: int)
    requires r.status == 200
    requires WebUiScrape.ScrapeError(r.doc, WebUiScrape.SyntheticEntry) == []
    requires 0 <= i < |Descendants(r.doc)| && AttrIs(Descendants(r.doc)[i], "id", "deinterlacing")
    requires forall t :: t in Descendants(r.doc) && AttrIs(t, "id", "deinterlacing") ==> "checked" in t.attrs
    ensures ConfigurationOutcome(url, DeinterlacingSubmission(source, true), Delivered(r)) == Ok(true)
  {
    FindAllHit(CheckboxChecked("deinterlacing"), Descendants(r.doc), i);
    ConfigurationSuccess(url, DeinterlacingSubmission(source, true), Delivered(r));
  }

  /** The same page refutes disabling, naming the OFF check. */
  lemma DeinterlacingOffRefuted(url: string, source: string, r: Response)
    requires r.status == 200
    requires WebUiScrape.ScrapeError(r.doc, WebUiScrape.SyntheticEntry) == []
    requires forall t :: t in Descendants(r.doc) && AttrIs(t, "id", "deinterlacing") ==> "checked" in t.attrs
    ensures ConfigurationOutcome(url, DeinterlacingSubmission(source, false), Delivered(r)) ==
              Fail(SettingConfigError(CallPrefix(url, "admin/sources/" + source) + "- " + DeinterlacingOffMsg))
  {
    var tags := Descendants(r.doc);
    forall j | 0 <= j < |tags| ensures Holds(CheckboxUnchecked("deinterlacing"), tags[j]) == Ok(false) {
      assert tags[j] in tags;
    }
    FindAllMiss(CheckboxUnchecked("deinterlacing"), tags);
    DeinterlacingOffFails(url, source, r);
  }

  lemma DeinterlacingOffFails(url: string, source: string, r: Response)
    requires r.status == 200
    requires WebUiScrape.ScrapeError(r.doc, WebUiScrape.SyntheticEntry) == []
    requires FindAll(CheckboxUnchecked("deinterlacing"), Descendants(r.doc)) == Ok([])
    ensures ConfigurationOutcome(url, DeinterlacingSubmission(source, false), Delivered(r)) ==
              Fail(SettingConfigError(CallPrefix(url, "admin/sources/" + source) + "- " + DeinterlacingOffMsg))
  {
    var sub := DeinterlacingSubmission(source, false);
    assert sub.checks[0] == CheckSpec(DeinterlacingOffMsg, CheckboxUnchecked("deinterlacing"));
    ConfigurationFirstFailing(url, sub, r, 0);
  }
}
