/**
 * The client object (epipearl/epipearl.py): its connection settings, how
 * it sends requests, the key/value parameter calls, and the composite
 * operations that chain several web UI calls.
 */
module Client {
  import opened Wrappers
  import opened Errors
  import opened Http
  import PyStr
  import Admin
  import WebUiConfig
  import WebUiChannel

  const DefaultTimeout := 5

  /** `timeout or _default_timeout`: None and 0 are falsy. */
  function EffectiveTimeout(timeout: Option<int>): (t: int)
    ensures timeout.Some? && timeout.value != 0 ==> t == timeout.value
    ensures timeout.None? || timeout.value == 0 ==> t == DefaultTimeout
    ensures t != 0
  {
    match timeout
    case Some(v) => if v != 0 then v else DefaultTimeout
    case None => DefaultTimeout
  }

  /** The headers every request carries unless overridden. */
  function DefaultHeaders(userAgent: string): map<string, string>
  {
    map["User-Agent" := userAgent,
        "Accept-Encoding" := PyStr.Join(["gzip", "deflate"], ", "),
        "Accept" := "text/html, text/*, video/avi",
        "X-REQUESTED-AUTH" := "Basic"]
  }

  /** What goes on the wire for one request: everything the HTTP library is handed. */
  datatype Transmission = Transmission(
    verb: Verb, baseUrl: string, path: string, payload: Payload,
    headers: map<string, string>, timeout: int, user: string, passwd: string)

  // ---------------------------------------------------------------------
  // get_params: `key = value` lines
  // ---------------------------------------------------------------------

  /** A line the parser accepts: exactly one `=`. */
  predicate WellFormed(line: string)
  {
    PyStr.CountChar(line, '=') == 1
  }

  /** `(key, value) = [x.strip() for x in line.split('=')]` */
  function ParseLine(line: string): (r: Outcome<(string, string)>)
    ensures r.Ok? <==> WellFormed(line)
    ensures r.Raise? ==> r.exc.ValueError?
  {
    PyStr.SplitCount(line, '=');
    var parts := PyStr.Split(line, '=');
    if |parts| < 2 then Raise(ValueError("need more than 1 value to unpack"))
    else if |parts| > 2 then Raise(ValueError("too many values to unpack"))
    else Ok(StripBoth(parts[0], parts[1]))
  }

  /** `[x.strip() for x in ...]` over the two halves of a line. */
  function StripBoth(key: string, value: string): (string, string)
  {
    (PyStr.Strip(key), PyStr.Strip(value))
  }

  /** A line `k=v` with no `=` in `k` or `v` parses to the stripped pair. */
  lemma ParseLineOfPair(k: string, v: string)
    requires '=' !in k && '=' !in v
    ensures ParseLine(k + "=" + v) == Ok((PyStr.Strip(k), PyStr.Strip(v)))
  {
    PyStr.SplitJoin([k, v], '=');
    assert PyStr.Join([k, v], "=") == k + "=" + v;
  }

  /** The parsing loop over `lines`, into `acc`; a later line overwrites an earlier key. */
  function ParseLines(lines: seq<string>, acc: map<string, string>): Outcome<map<string, string>>
  {
    if lines == [] then Ok(acc)
    else match ParseLine(lines[0])
      case Raise(e) => Raise(e)
      case Ok(kv) => ParseLines(lines[1..], acc[kv.0 := kv.1])
  }

  /** The map `get_params` returns for a response body. */
  function ParseParams(text: string): Outcome<map<string, string>>
  {
    ParseLines(PyStr.SplitLines(text), map[])
  }

  /** Parsing succeeds exactly when every line holds exactly one `=`. */
  lemma {:induction false} ParseLinesOk(lines: seq<string>, acc: map<string, string>)
    ensures ParseLines(lines, acc).Ok? <==> forall i :: 0 <= i < |lines| ==> WellFormed(lines[i])
    ensures ParseLines(lines, acc).Raise? ==> ParseLines(lines, acc).exc.ValueError?
  {
    if lines != [] {
      var r := ParseLine(lines[0]);
      var rest := lines[1..];
      if r.Ok? {
        var acc' := acc[r.value.0 := r.value.1];
        assert ParseLines(lines, acc) == ParseLines(rest, acc');
        ParseLinesOk(rest, acc');
        assert (forall i :: 0 <= i < |lines| ==> WellFormed(lines[i])) <==>
               (forall i :: 0 <= i < |rest| ==> WellFormed(rest[i])) by {
          assert forall i :: 0 <= i < |rest| ==> rest[i] == lines[i + 1];
          assert WellFormed(lines[0]);
          forall i | 0 <= i < |lines| && (forall j :: 0 <= j < |rest| ==> WellFormed(rest[j]))
            ensures WellFormed(lines[i])
          {
            if i > 0 { assert lines[i] == rest[i - 1]; }
          }
        }
      } else {
        assert !WellFormed(lines[0]);
        assert ParseLines(lines, acc) == Raise(r.exc);
      }
    }
  }

  /** Every line of `ls` parses, and none carries the key `k`. */
  predicate KeyAbsent(ls: seq<string>, k: string)
  {
    forall j :: 0 <= j < |ls| ==> ParseLine(ls[j]).Ok? && ParseLine(ls[j]).value.0 != k
  }

  /** A key no later line mentions keeps its value to the end. */
  lemma {:induction false} ParseLinesKeeps(lines: seq<string>, acc: map<string, string>, k: string)
    requires k in acc && KeyAbsent(lines, k)
    ensures ParseLines(lines, acc).Ok?
    ensures k in ParseLines(lines, acc).value && ParseLines(lines, acc).value[k] == acc[k]
  {
    if lines != [] {
      var r := ParseLine(lines[0]);
      assert r.Ok? && r.value.0 != k;
      var rest := lines[1..];
      var acc' := acc[r.value.0 := r.value.1];
      assert ParseLines(lines, acc) == ParseLines(rest, acc');
      assert KeyAbsent(rest, k) by {
        forall j | 0 <= j < |rest|
          ensures ParseLine(rest[j]).Ok? && ParseLine(rest[j]).value.0 != k
        {
          assert rest[j] == lines[j + 1];
        }
      }
      ParseLinesKeeps(rest, acc', k);
    }
  }

  /** The value of a key is the one on the last line that carries it. */
  lemma {:induction false} ParseLinesLastWins(lines: seq<string>, acc: map<string, string>, i: int)
    requires ParseLines(lines, acc).Ok?
    requires 0 <= i < |lines| && ParseLine(lines[i]).Ok?
    requires KeyAbsent(lines[i + 1..], ParseLine(lines[i]).value.0)
    ensures var kv := ParseLine(lines[i]).value;
            kv.0 in ParseLines(lines, acc).value && ParseLines(lines, acc).value[kv.0] == kv.1
  {
    var r := ParseLine(lines[0]);
    assert r.Ok?;
    var rest := lines[1..];
    var acc' := acc[r.value.0 := r.value.1];
    assert ParseLines(lines, acc) == ParseLines(rest, acc');
    if i == 0 {
      ParseLinesKeeps(rest, acc', r.value.0);
    } else {
      assert rest[i - 1] == lines[i] && rest[i..] == lines[i + 1..];
      ParseLinesLastWins(rest, acc', i - 1);
    }
  }

  // ---------------------------------------------------------------------
  // set_params: Python 2 integer division
  // ---------------------------------------------------------------------

  /** `2 == status_code / 100`, with `/` flooring as Python 2 does on ints. */
  predicate IsSuccessStatus(status: int)
  {
    status / 100 == 2
  }

  /** Floor division by 100 gives 2 exactly for 200 through 299. */
  lemma SuccessStatusRange(status: int)
    ensures IsSuccessStatus(status) <==> 200 <= status < 300
  {
    var q := status / 100;
    assert status == 100 * q + status % 100 && 0 <= status % 100 < 100;
    if 200 <= status < 300 {
      assert 100 * q > 100 && 100 * q < 300;
    }
  }

  // ---------------------------------------------------------------------
  // delete_channel_or_recorder_by_name: the device's channel list
  // ---------------------------------------------------------------------

  /** One entry of the `channels` list; either key may be missing. */
  datatype ChannelEntry = ChannelEntry(name: Option<string>, id: Option<string>)

  /** The sysinfo answer: its status, and the `channels` list when present. */
  datatype SysInfo = SysInfo(statusCode: int, channels: Option<seq<ChannelEntry>>)

  /** The ids of the entries that have both keys and the given name, in list order. */
  function MatchingIds(entries: seq<ChannelEntry>, name: string): (ids: seq<string>)
    ensures |ids| <= |entries|
    ensures forall id :: id in ids <==> exists i :: 0 <= i < |entries| && entries[i] == ChannelEntry(Some(name), Some(id))
  {
    if entries == [] then []
    else
      var e := entries[0];
      var rest := MatchingIds(entries[1..], name);
      assert forall i :: 1 <= i < |entries| ==> entries[i] == entries[1..][i - 1];
      assert forall i :: 0 <= i < |entries[1..]| ==> entries[1..][i] == entries[i + 1];
      (if e.name.Some? && e.id.Some? && e.name.value == name then [e.id.value] else []) + rest
  }

  /** Python's repr of a list of unicode strings, as it appears in the error message. */
  function ListRepr(ids: seq<string>): string
  {
    "[" + PyStr.Join(Quoted(ids), ", ") + "]"
  }

  /** Each id as a Python 2 unicode literal `u'...'`. */
  function Quoted(ids: seq<string>): (r: seq<string>)
    ensures |r| == |ids|
  {
    if ids == [] then [] else ["u'" + ids[0] + "'"] + Quoted(ids[1..])
  }

  /** The i-th quoted entry is the i-th id between `u'` and `'`. */
  lemma {:induction false} QuotedEach(ids: seq<string>, i: int)
    requires 0 <= i < |ids|
    ensures Quoted(ids)[i] == "u'" + ids[i] + "'"
  {
    if i > 0 {
      QuotedEach(ids[1..], i - 1);
    }
  }

  class Epipearl {
    const url: string
    const user: string
    const passwd: string
    const timeout: int
    const defaultHeaders: map<string, string>

    /** The user agent string is passed in: it depends on the running platform. */
    constructor(baseUrl: string, user: string, passwd: string, timeout: Option<int>, userAgent: string)
      ensures this.url == baseUrl && this.user == user && this.passwd == passwd
      ensures this.timeout == EffectiveTimeout(timeout)
      ensures this.defaultHeaders == DefaultHeaders(userAgent)
    {
      this.url := baseUrl;
      this.user := user;
      this.passwd := passwd;
      this.timeout := EffectiveTimeout(timeout);
      this.defaultHeaders := DefaultHeaders(userAgent);
    }

    /** The headers of one request: a copy of the defaults, updated key by key with the extras. */
    function Headers(extra: map<string, string>): (h: map<string, string>)
      ensures forall k :: k in h <==> k in defaultHeaders || k in extra
      ensures forall k :: k in extra ==> h[k] == extra[k]
      ensures forall k :: k in defaultHeaders && k !in extra ==> h[k] == defaultHeaders[k]
    {
      defaultHeaders + extra
    }

    function Wire(req: Request): Transmission
    {
      Transmission(req.verb, url, req.path, req.payload, Headers(req.extraHeaders), timeout, user, passwd)
    }

    /** `get`/`post`: send with merged headers, the client's credentials and timeout, then `raise_for_status`. */
    method Send(req: Request, transport: Transmission -> Reply) returns (out: Outcome<Response>)
      ensures out == RaiseForStatus(transport(Wire(req)))
    {
      var headers := defaultHeaders;
      headers := headers + req.extraHeaders;
      var reply := transport(Transmission(req.verb, url, req.path, req.payload, headers, timeout, user, passwd));
      out := RaiseForStatus(reply);
    }

    /** What `get_params` returns or raises. */
    function GetParamsOutcome(channel: string, params: map<string, string>, transport: Transmission -> Reply)
      : Outcome<map<string, string>>
    {
      match Admin.GetParams(transport(Wire(Admin.ParamsRequest(channel, Admin.GetParamsScript, params))))
      case Raise(e) => Raise(e)
      case Ok(a) => ParseParams(a.responseText)
    }

    /** `get_params`: fetch the `key = value` lines and collect them in a map. */
    method GetParams(channel: string, params: map<string, string>, transport: Transmission -> Reply)
      returns (out: Outcome<map<string, string>>)
      ensures out == GetParamsOutcome(channel, params, transport)
    {
      var response := Admin.GetParams(transport(Wire(Admin.ParamsRequest(channel, Admin.GetParamsScript, params))));
      if response.Raise? {
        return Raise(response.exc);
      }
      var lines := PyStr.SplitLines(response.value.responseText);
      var r: map<string, string> := map[];
      var i := 0;
      while i < |lines|
        invariant 0 <= i <= |lines|
        invariant ParseLines(lines[i..], r) == ParseLines(lines, map[])
      {
        var kv := ParseLine(lines[i]);
        if kv.Raise? {
          return Raise(kv.exc);
        }
        r := r[kv.value.0 := kv.value.1];
        assert lines[i..][1..] == lines[i + 1..];
        i := i + 1;
      }
      return Ok(r);
    }

    /** `set_params`: true iff the status, floor-divided by 100, is 2. */
    method SetParams(channel: string, params: map<string, string>, transport: Transmission -> Reply)
      returns (out: Outcome<bool>)
      ensures var reply := transport(Wire(Admin.ParamsRequest(channel, Admin.SetParamsScript, params)));
              out.Ok? <==> RaiseForStatus(reply).Ok?
      ensures var reply := transport(Wire(Admin.ParamsRequest(channel, Admin.SetParamsScript, params)));
              out.Ok? ==> (out.value <==> 200 <= reply.response.status < 300)
      ensures var reply := transport(Wire(Admin.ParamsRequest(channel, Admin.SetParamsScript, params)));
              reply.TransportFailed? ==> out == Raise(RequestException(reply.reason))
      ensures var reply := transport(Wire(Admin.ParamsRequest(channel, Admin.SetParamsScript, params)));
              reply.Delivered? && 400 <= reply.response.status < 600 ==> out == Raise(HTTPError(reply.response.status))
    {
      var response := Admin.SetParams(transport(Wire(Admin.ParamsRequest(channel, Admin.SetParamsScript, params))));
      if response.Raise? {
        return Raise(response.exc);
      }
      SuccessStatusRange(response.value.statusCode);
      return Ok(IsSuccessStatus(response.value.statusCode));
    }

    /**
     * `create_channel`: create, rename, set the layout; the outcome and the
     * requests sent, stopping at the first failing step.
     */
    function CreateChannelRun(channelName: string, layoutJson: string, layoutId: string,
                              transport: Transmission -> Reply): (Outcome<bool>, seq<Request>)
    {
      var create := WebUiChannel.AddChannelRequest;
      match WebUiChannel.CreateChannelOutcome(url, transport(Wire(create)))
      case Raise(e) =>
        (Fail(RequestsError("failed to create channel(" + channelName + ") - " + Message(e))), [create])
      case Ok(channelId) =>
        var rename := WebUiChannel.RenameRequest(channelId, channelName);
        match RenameStep(channelId, channelName, transport)
        case Raise(e) =>
          (Fail(RequestsError("failed to rename channel(" + channelId + ")(" + channelName + ") - " + Message(e))),
           [create, rename])
        case Ok(_) =>
          var layout := WebUiChannel.LayoutRequest(channelId, layoutJson, layoutId);
          match LayoutStep(channelId, layoutJson, layoutId, transport)
          case Raise(e) =>
            (Fail(RequestsError("failed to set layout to channel(" + channelId + ")(" + channelName + ") - " + Message(e))),
             [create, rename, layout])
          case Ok(_) => (Ok(true), [create, rename, layout])
    }

    /** `create_channel`, step by step. */
    method CreateChannel(channelName: string, layoutJson: string, layoutId: string, transport: Transmission -> Reply)
      returns (out: Outcome<bool>, sent: seq<Request>)
      ensures (out, sent) == CreateChannelRun(channelName, layoutJson, layoutId, transport)
    {
      sent := [WebUiChannel.AddChannelRequest];
      var created := WebUiChannel.CreateChannelOutcome(url, transport(Wire(WebUiChannel.AddChannelRequest)));
      if created.Raise? {
        var msg := "failed to create channel(" + channelName + ") - " + Message(created.exc);
        return Fail(RequestsError(msg)), sent;
      }
      var channelId := created.value;
      var rename := WebUiChannel.RenameRequest(channelId, channelName);
      sent := sent + [rename];
      assert sent == [WebUiChannel.AddChannelRequest, rename];
      var renamed := WebUiChannel.RenameChannelOutcome(url, channelName, transport(Wire(rename)));
      if renamed.Raise? {
        var msg := "failed to rename channel(" + channelId + ")(" + channelName + ") - " + Message(renamed.exc);
        return Fail(RequestsError(msg)), sent;
      }
      var layout := WebUiChannel.LayoutRequest(channelId, layoutJson, layoutId);
      sent := sent + [layout];
      assert sent == [WebUiChannel.AddChannelRequest, rename, layout];
      var laid := WebUiChannel.SetChannelLayoutOutcome(url, channelId, layoutId, transport(Wire(layout)));
      if laid.Raise? {
        var msg := "failed to set layout to channel(" + channelId + ")(" + channelName + ") - " + Message(laid.exc);
        return Fail(RequestsError(msg)), sent;
      }
      return Ok(true), sent;
    }

    /** The outcome of the rename step for the id the create step returned. */
    function RenameStep(channelId: string, channelName: string, transport: Transmission -> Reply): Outcome<string>
    {
      WebUiChannel.RenameChannelOutcome(url, channelName, transport(Wire(WebUiChannel.RenameRequest(channelId, channelName))))
    }

    /** The outcome of the layout step for the id the create step returned. */
    function LayoutStep(channelId: string, layoutJson: string, layoutId: string, transport: Transmission -> Reply)
      : Outcome<string>
    {
      WebUiChannel.SetChannelLayoutOutcome(url, channelId, layoutId,
                                           transport(Wire(WebUiChannel.LayoutRequest(channelId, layoutJson, layoutId))))
    }

    /**
     * Every failure of `create_channel` is a RequestsError. The create step
     * always runs; the rename runs only after a successful create and the
     * layout only after a successful rename, both on the created channel;
     * the result is True exactly when all three steps succeed.
     */
    lemma CreateChannelSteps(channelName: string, layoutJson: string, layoutId: string, transport: Transmission -> Reply)
      ensures var (out, sent) := CreateChannelRun(channelName, layoutJson, layoutId, transport);
              1 <= |sent| <= 3 && sent[0] == WebUiChannel.AddChannelRequest &&
              (out.Raise? ==> out.exc.Library? && out.exc.error.RequestsError?) &&
              (out.Ok? ==> out.value && |sent| == 3)
      ensures var (out, sent) := CreateChannelRun(channelName, layoutJson, layoutId, transport);
              var created := WebUiChannel.CreateChannelOutcome(url, transport(Wire(WebUiChannel.AddChannelRequest)));
              (created.Raise? <==> |sent| == 1) &&
              (|sent| > 1 ==> created.Ok? && sent[1] == WebUiChannel.RenameRequest(created.value, channelName)) &&
              (|sent| == 2 <==> created.Ok? && RenameStep(created.value, channelName, transport).Raise?) &&
              (|sent| > 2 ==> created.Ok? && RenameStep(created.value, channelName, transport).Ok? &&
                              sent[2] == WebUiChannel.LayoutRequest(created.value, layoutJson, layoutId))
      ensures var (out, sent) := CreateChannelRun(channelName, layoutJson, layoutId, transport);
              var created := WebUiChannel.CreateChannelOutcome(url, transport(Wire(WebUiChannel.AddChannelRequest)));
              out.Ok? <==> created.Ok? && RenameStep(created.value, channelName, transport).Ok? &&
                           LayoutStep(created.value, layoutJson, layoutId, transport).Ok?
      ensures var (out, sent) := CreateChannelRun(channelName, layoutJson, layoutId, transport);
              var created := WebUiChannel.CreateChannelOutcome(url, transport(Wire(WebUiChannel.AddChannelRequest)));
              created.Raise? ==>
                out == Fail(RequestsError("failed to create channel(" + channelName + ") - " + Message(created.exc)))
    {
    }

    /** The outcome of `WebUiChannel.delete_channel` for one id. */
    function DeleteOne(id: string, transport: Transmission -> Reply): Outcome<bool>
    {
      var sub := WebUiChannel.DeleteSubmission(id);
      WebUiConfig.ConfigurationOutcome(url, sub, transport(Wire(WebUiConfig.ConfigurationRequest(sub))))
    }

    /** The message of the RequestsError a failed delete turns into. */
    function DeleteFailure(all: seq<string>, channelName: string, e: Exception): Error
    {
      RequestsError("failed to delete channel(" + ListRepr(all) + ")(" + channelName + ") from device(" +
                    url + ") - " + Message(e))
    }

    /**
     * `delete_channel_or_recorder_by_name`'s loop: delete in list order,
     * stopping at the first failure; the outcome and the ids whose delete
     * was sent.
     */
    function DeleteAllRun(all: seq<string>, ids: seq<string>, channelName: string, delete: string -> Outcome<bool>)
      : (Outcome<bool>, seq<string>)
    {
      if ids == [] then (Ok(true), [])
      else
        match delete(ids[0])
        case Raise(e) => (Fail(DeleteFailure(all, channelName, e)), [ids[0]])
        case Ok(_) =>
          var (o, s) := DeleteAllRun(all, ids[1..], channelName, delete);
          (o, [ids[0]] + s)
    }

    /** `WebUiChannel.delete_channel` through this client, as a function of the id. */
    function Deleter(transport: Transmission -> Reply): (delete: string -> Outcome<bool>)
      ensures forall id :: delete(id) == DeleteOne(id, transport)
    {
      (id: string) => DeleteOne(id, transport)
    }

    /**
     * The deletes go out in list order: the ids tried are a prefix of
     * `ids`, every one before the last succeeded, success means all were
     * tried, and a failure is the last one tried failing, reported as a
     * RequestsError.
     */
    lemma {:induction false} DeleteAllShape(all: seq<string>, ids: seq<string>, channelName: string,
                                            delete: string -> Outcome<bool>)
      ensures var (out, tried) := DeleteAllRun(all, ids, channelName, delete);
              |tried| <= |ids| && tried == ids[..|tried|] && (ids != [] ==> |tried| >= 1) &&
              (forall i :: 0 <= i < |tried| - 1 ==> delete(tried[i]).Ok?) &&
              (out.Ok? ==> out.value && tried == ids) &&
              (out.Raise? ==> |tried| >= 1 && delete(tried[|tried| - 1]).Raise? &&
                              out.exc.Library? && out.exc.error.RequestsError?)
    {
      if ids != [] {
        var rest := ids[1..];
        if delete(ids[0]).Ok? {
          DeleteAllShape(all, rest, channelName, delete);
          var (o, s) := DeleteAllRun(all, rest, channelName, delete);
          var tried := [ids[0]] + s;
          assert DeleteAllRun(all, ids, channelName, delete) == (o, tried);
          assert ids[..|tried|] == [ids[0]] + rest[..|s|];
          assert ids == [ids[0]] + rest;
          forall i | 0 <= i < |tried| - 1
            ensures delete(tried[i]).Ok?
          {
            if i > 0 { assert tried[i] == s[i - 1]; }
          }
          if o.Raise? {
            assert tried[|tried| - 1] == s[|s| - 1];
          }
        } else {
          assert ids[..1] == [ids[0]];
        }
      }
    }

    /** The ids `delete_channel_or_recorder_by_name` deletes: none when the list is missing. */
    function IdsToDelete(info: SysInfo, channelName: string): seq<string>
    {
      match info.channels
      case None => []
      case Some(entries) => MatchingIds(entries, channelName)
    }

    function DeleteByNameRun(channelName: string, sysinfo: Outcome<SysInfo>, transport: Transmission -> Reply)
      : (Outcome<bool>, seq<string>)
    {
      match sysinfo
      case Raise(e) =>
        (Fail(RequestsError("failed to GET sysinfo for device(" + url + ") - " + Message(e))), [])
      case Ok(info) =>
        if info.statusCode != 200 then
          (Fail(RequestsError("error in GET json_sysinfo from device(" + url + ")" +
                              " - status_code(" + PyStr.IntToString(info.statusCode) + ")")), [])
        else
          var ids := IdsToDelete(info, channelName);
          if |ids| == 0 then (Ok(true), [])
          else DeleteAllRun(ids, ids, channelName, Deleter(transport))
    }

    /**
     * `delete_channel_or_recorder_by_name`; the sysinfo answer is an input
     * (its call is not part of this model). Also returns the ids whose
     * delete was sent.
     */
    method DeleteChannelOrRecorderByName(channelName: string, sysinfo: Outcome<SysInfo>, transport: Transmission -> Reply)
      returns (out: Outcome<bool>, tried: seq<string>)
      ensures (out, tried) == DeleteByNameRun(channelName, sysinfo, transport)
    {
      tried := [];
      if sysinfo.Raise? {
        var msg := "failed to GET sysinfo for device(" + url + ") - " + Message(sysinfo.exc);
        return Fail(RequestsError(msg)), tried;
      }
      var info := sysinfo.value;
      if info.statusCode != 200 {
        var msg := "error in GET json_sysinfo from device(" + url + ")";
        msg := msg + " - status_code(" + PyStr.IntToString(info.statusCode) + ")";
        return Fail(RequestsError(msg)), tried;
      }
      var channelId: seq<string> := [];
      if info.channels.Some? {
        var entries := info.channels.value;
        var i := 0;
        while i < |entries|
          invariant 0 <= i <= |entries|
          invariant channelId == MatchingIds(entries[..i], channelName)
        {
          var c := entries[i];
          if c.name.Some? && c.id.Some? {
            if c.name.value == channelName {
              channelId := channelId + [c.id.value];
            }
          }
          MatchingIdsAppend(entries[..i], c, channelName);
          assert entries[..i + 1] == entries[..i] + [c];
          i := i + 1;
        }
        assert entries[..i] == entries;
      }
      if |channelId| == 0 {
        return Ok(true), tried;
      }
      out, tried := DeleteAll(channelId, channelName, Deleter(transport));
    }

    /** The loop over the matching ids: one delete per id, stopping at the first failure. */
    method DeleteAll(channelId: seq<string>, channelName: string, delete: string -> Outcome<bool>)
      returns (out: Outcome<bool>, tried: seq<string>)
      ensures (out, tried) == DeleteAllRun(channelId, channelId, channelName, delete)
    {
      tried := [];
      var k := 0;
      assert channelId[0..] == channelId;
      while k < |channelId|
        invariant 0 <= k <= |channelId|
        invariant tried == channelId[..k]
        invariant DeleteAllRun(channelId, channelId, channelName, delete).0 ==
                  DeleteAllRun(channelId, channelId[k..], channelName, delete).0
        invariant DeleteAllRun(channelId, channelId, channelName, delete).1 ==
                  tried + DeleteAllRun(channelId, channelId[k..], channelName, delete).1
      {
        var id := channelId[k];
        var deleted := delete(id);
        var rest := channelId[k..];
        assert rest[0] == id && rest[1..] == channelId[k + 1..];
        assert channelId[..k + 1] == tried + [id];
        var next := DeleteAllRun(channelId, rest[1..], channelName, delete);
        tried := tried + [id];
        if deleted.Raise? {
          var msg := "failed to delete channel(" + ListRepr(channelId) + ")(" + channelName + ") from device(" +
                     url + ") - " + Message(deleted.exc);
          return Fail(RequestsError(msg)), tried;
        }
        assert DeleteAllRun(channelId, rest, channelName, delete) == (next.0, [id] + next.1);
        k := k + 1;
      }
      assert channelId[k..] == [];
      assert tried + [] == tried;
      return Ok(true), tried;
    }

    /**
     * Nothing matching means nothing deleted and success; otherwise the
     * deletes go out in list order up to the first failure, and every
     * failure is a RequestsError.
     */
    lemma DeleteByNameSteps(channelName: string, sysinfo: Outcome<SysInfo>, transport: Transmission -> Reply)
      ensures var (out, tried) := DeleteByNameRun(channelName, sysinfo, transport);
              (out.Raise? ==> out.exc.Library? && out.exc.error.RequestsError?) &&
              (sysinfo.Raise? || sysinfo.value.statusCode != 200 ==> out.Raise? && tried == [])
      ensures var (out, tried) := DeleteByNameRun(channelName, sysinfo, transport);
              sysinfo.Ok? && sysinfo.value.statusCode == 200 ==>
                var ids := IdsToDelete(sysinfo.value, channelName);
                (ids == [] ==> out == Ok(true) && tried == []) &&
                |tried| <= |ids| && tried == ids[..|tried|] &&
                (out.Ok? ==> tried == ids) &&
                (out.Raise? ==> |tried| >= 1 && DeleteOne(tried[|tried| - 1], transport).Raise?)
    {
      if sysinfo.Ok? && sysinfo.value.statusCode == 200 {
        var ids := IdsToDelete(sysinfo.value, channelName);
        if ids != [] {
          DeleteAllShape(ids, ids, channelName, Deleter(transport));
        }
      }
    }
  }

  lemma MatchingIdsAppend(entries: seq<ChannelEntry>, e: ChannelEntry, name: string)
    ensures MatchingIds(entries + [e], name) ==
            MatchingIds(entries, name) + (if e.name.Some? && e.id.Some? && e.name.value == name then [e.id.value] else [])
  {
    if entries == [] {
      assert entries + [e] == [e];
    } else {
      assert (entries + [e])[1..] == entries[1..] + [e];
      MatchingIdsAppend(entries[1..], e, name);
    }
  }
}
