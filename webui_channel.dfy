/**
 * Channel management through the web UI (epipearl/endpoints/webui_channel.py):
 * decoding the redirect that announces a new channel, renaming it, setting
 * its layout and RTMP stream, and deleting channels and recorders.
 */
module WebUiChannel {
  import opened Wrappers
  import opened Errors
  import opened Html
  import opened Http
  import PyStr
  import WebUiConfig

  // ---------------------------------------------------------------------
  // The channel id in a Location header: re.findall(r'/admin/channel(\d+)', loc)
  // ---------------------------------------------------------------------

  const ChannelPrefix := "/admin/channel"

  /** Length of the run of decimal digits at the head of `s`. */
  function DigitRun(s: string): (n: nat)
    ensures n <= |s|
    ensures forall i :: 0 <= i < n ==> PyStr.IsDigit(s[i])
    ensures n < |s| ==> !PyStr.IsDigit(s[n])
  {
    if s == [] || !PyStr.IsDigit(s[0]) then 0 else DigitRun(s[1..]) + 1
  }

  /** At the head of `s` stands the prefix followed by at least one digit. */
  predicate MatchesAtHead(s: string)
  {
    PyStr.IsPrefix(ChannelPrefix, s) && DigitRun(s[|ChannelPrefix|..]) > 0
  }

  /**
   * The captured digit strings of the non-overlapping matches, left to
   * right; the digit run is greedy and scanning resumes after each match.
   */
  function ChannelIds(s: string): (ids: seq<string>)
    ensures forall k :: 0 <= k < |ids| ==> |ids[k]| > 0
    ensures forall k, i :: 0 <= k < |ids| && 0 <= i < |ids[k]| ==> PyStr.IsDigit(ids[k][i])
    ensures forall k :: 0 <= k < |ids| ==> PyStr.Contains(s, ChannelPrefix + ids[k])
    decreases |s|
  {
    if s == [] then []
    else if MatchesAtHead(s) then
      var n := DigitRun(s[|ChannelPrefix|..]);
      var end := |ChannelPrefix| + n;
      var id := s[|ChannelPrefix|..end];
      var rest := ChannelIds(s[end..]);
      assert PyStr.OccursAt(s, 0, ChannelPrefix + id);
      forall k | 0 <= k < |rest| ensures PyStr.Contains(s, ChannelPrefix + rest[k]) {
        PyStr.SuffixContained(s, end, ChannelPrefix + rest[k]);
      }
      [id] + rest
    else
      var rest := ChannelIds(s[1..]);
      forall k | 0 <= k < |rest| ensures PyStr.Contains(s, ChannelPrefix + rest[k]) {
        PyStr.SuffixContained(s, 1, ChannelPrefix + rest[k]);
      }
      rest
  }

  /** The prefix followed by at least one digit stands in `s` at index `i`. */
  predicate MatchesAt(s: string, i: int)
  {
    0 <= i && i + |ChannelPrefix| <= |s| && s[i..i + |ChannelPrefix|] == ChannelPrefix &&
    DigitRun(s[i + |ChannelPrefix|..]) > 0
  }

  /** The id matched at index `i`: the whole digit run after the prefix. */
  function IdAt(s: string, i: int): (id: string)
    requires MatchesAt(s, i)
    ensures |id| == DigitRun(s[i + |ChannelPrefix|..]) > 0
  {
    s[i + |ChannelPrefix|..i + |ChannelPrefix| + DigitRun(s[i + |ChannelPrefix|..])]
  }

  /** A match at the head of `s` is the match at index 0, and the first id `ChannelIds` takes. */
  lemma HeadMatch(s: string)
    ensures MatchesAtHead(s) <==> MatchesAt(s, 0)
    ensures MatchesAtHead(s) ==> ChannelIds(s)[0] == IdAt(s, 0)
  {
    if |ChannelPrefix| <= |s| {
      assert s[0..|ChannelPrefix|] == s[..|ChannelPrefix|];
    }
  }

  /** A match in a suffix of `s` is a match in `s`, with the same id. */
  lemma ShiftMatch(s: string, d: int, j: int)
    requires 0 <= d <= |s| && MatchesAt(s[d..], j)
    ensures MatchesAt(s, d + j) && IdAt(s, d + j) == IdAt(s[d..], j)
  {
    var p := |ChannelPrefix|;
    assert s[d..][j..j + p] == s[d + j..d + j + p];
    assert s[d..][j + p..] == s[d + j + p..];
    var n := DigitRun(s[d + j + p..]);
    assert s[d..][j + p..j + p + n] == s[d + j + p..d + j + p + n];
  }

  /**
   * Every id found is a greedy match: it is the whole digit run after some
   * occurrence of the prefix, so what follows it, if anything, is not a
   * digit.
   */
  lemma {:induction false} ChannelIdMaximal(s: string, k: int)
    requires 0 <= k < |ChannelIds(s)|
    ensures exists i :: MatchesAt(s, i) && ChannelIds(s)[k] == IdAt(s, i)
    decreases |s|
  {
    HeadMatch(s);
    if MatchesAtHead(s) {
      var end := |ChannelPrefix| + DigitRun(s[|ChannelPrefix|..]);
      var rest := s[end..];
      assert ChannelIds(s)[1..] == ChannelIds(rest);
      if k > 0 {
        ChannelIdMaximal(rest, k - 1);
        var j :| MatchesAt(rest, j) && ChannelIds(rest)[k - 1] == IdAt(rest, j);
        ShiftMatch(s, end, j);
      }
    } else {
      var rest := s[1..];
      assert ChannelIds(s) == ChannelIds(rest);
      ChannelIdMaximal(rest, k);
      var j :| MatchesAt(rest, j) && ChannelIds(rest)[k] == IdAt(rest, j);
      ShiftMatch(s, 1, j);
    }
  }

  /** A match anywhere in `s` yields at least one id. */
  lemma {:induction false} MatchFound(s: string, i: int)
    requires MatchesAt(s, i)
    ensures |ChannelIds(s)| > 0
    decreases i
  {
    HeadMatch(s);
    if !MatchesAtHead(s) {
      var p := |ChannelPrefix|;
      assert s[1..][i - 1..i - 1 + p] == s[i..i + p];
      assert s[1..][i - 1 + p..] == s[i + p..];
      MatchFound(s[1..], i - 1);
    }
  }

  /** Where the match at index `k` ends: after the prefix and the whole digit run. */
  function MatchEnd(s: string, k: int): (e: int)
    requires MatchesAt(s, k)
    ensures k + |ChannelPrefix| < e <= |s|
  {
    k + |ChannelPrefix| + DigitRun(s[k + |ChannelPrefix|..])
  }

  /**
   * The scan of `ChannelIds` resumed at index `k` of `s`: it takes the
   * match at `k`, if any, and goes on after it, else it moves one on.
   */
  function IdsFrom(s: string, k: int): seq<string>
    requires 0 <= k <= |s|
    decreases |s| - k
  {
    if k == |s| then []
    else if MatchesAt(s, k) then [IdAt(s, k)] + IdsFrom(s, MatchEnd(s, k))
    else IdsFrom(s, k + 1)
  }

  /** A match in `s` at or after `d` is a match in `s[d..]`, with the same id. */
  lemma UnshiftMatch(s: string, d: int, i: int)
    requires 0 <= d <= i && MatchesAt(s, i)
    ensures MatchesAt(s[d..], i - d) && IdAt(s[d..], i - d) == IdAt(s, i)
  {
    var p := |ChannelPrefix|;
    assert s[d..][i - d..i - d + p] == s[i..i + p];
    assert s[d..][i - d + p..] == s[i + p..];
  }

  /** The ids of a suffix are the scan resumed where the suffix starts. */
  lemma {:induction false} IdsFromSuffix(s: string, k: int)
    requires 0 <= k <= |s|
    ensures ChannelIds(s[k..]) == IdsFrom(s, k)
    decreases |s| - k
  {
    if k < |s| {
      var t := s[k..];
      var p := |ChannelPrefix|;
      HeadMatch(t);
      if MatchesAt(s, k) {
        UnshiftMatch(s, k, k);
        var e := MatchEnd(s, k);
        assert t[p..] == s[k + p..];
        assert t[e - k..] == s[e..];
        IdsFromSuffix(s, e);
      } else {
        if MatchesAt(t, 0) {
          ShiftMatch(s, k, 0);
        }
        assert t[1..] == s[k + 1..];
        IdsFromSuffix(s, k + 1);
      }
    }
  }

  /**
   * Matches never overlap: a later match starts at or after the end of an
   * earlier one, since the prefix cannot begin inside the prefix or inside
   * the digit run.
   */
  lemma MatchAfter(s: string, k: int, i: int)
    requires MatchesAt(s, k) && MatchesAt(s, i) && k < i
    ensures MatchEnd(s, k) <= i
  {
    if i < k + |ChannelPrefix| {
      PrefixNotInPrefix(s, k, i);
    } else if i < MatchEnd(s, k) {
      PrefixNotInDigits(s, k, i);
    }
  }

  /** The prefix does not occur again inside itself. */
  lemma PrefixNotInPrefix(s: string, k: int, i: int)
    requires 0 <= k && k + |ChannelPrefix| <= |s| && s[k..k + |ChannelPrefix|] == ChannelPrefix
    requires k < i < k + |ChannelPrefix| && i + |ChannelPrefix| <= |s|
    ensures s[i..i + |ChannelPrefix|] != ChannelPrefix
  {
    var p := |ChannelPrefix|;
    if i - k == 6 {
      assert s[i..i + p][1] == s[i + 1] == s[k..k + p][7] == 'c';
    } else {
      assert s[i..i + p][0] == s[i] == s[k..k + p][i - k] != '/';
    }
  }

  /** The prefix does not begin inside the digit run of a match. */
  lemma PrefixNotInDigits(s: string, k: int, i: int)
    requires MatchesAt(s, k) && k + |ChannelPrefix| <= i < MatchEnd(s, k) && i + |ChannelPrefix| <= |s|
    ensures s[i..i + |ChannelPrefix|] != ChannelPrefix
  {
    var p := |ChannelPrefix|;
    assert PyStr.IsDigit(s[k + p..][i - k - p]);
    assert s[i..i + p][0] == s[i] == s[k + p..][i - k - p];
    assert !PyStr.IsDigit(ChannelPrefix[0]);
  }

  /** The scan resumed at or before a match lists that match's id. */
  lemma {:induction false} ListedFrom(s: string, k: int, i: int)
    requires 0 <= k <= i && MatchesAt(s, i)
    ensures IdAt(s, i) in IdsFrom(s, k)
    decreases |s| - k
  {
    if k < i {
      if MatchesAt(s, k) {
        MatchAfter(s, k, i);
        ListedFrom(s, MatchEnd(s, k), i);
      } else {
        ListedFrom(s, k + 1, i);
      }
    }
  }

  /** The scan resumed at or before two matches lists at least two ids. */
  lemma {:induction false} TwoListedFrom(s: string, k: int, i: int, j: int)
    requires 0 <= k <= i < j && MatchesAt(s, i) && MatchesAt(s, j)
    ensures |IdsFrom(s, k)| >= 2
    decreases |s| - k
  {
    if k == i {
      MatchAfter(s, i, j);
      ListedFrom(s, MatchEnd(s, i), j);
    } else if MatchesAt(s, k) {
      MatchAfter(s, k, i);
      TwoListedFrom(s, MatchEnd(s, k), i, j);
    } else {
      TwoListedFrom(s, k + 1, i, j);
    }
  }

  /**
   * Every match is listed: the id at any occurrence of the prefix followed
   * by digits is one of the ids `ChannelIds` returns.
   */
  lemma MatchListed(s: string, i: int)
    requires MatchesAt(s, i)
    ensures IdAt(s, i) in ChannelIds(s)
  {
    IdsFromSuffix(s, 0);
    assert s[0..] == s;
    ListedFrom(s, 0, i);
  }

  /** Two matches at different places give at least two ids. */
  lemma TwoMatchesListed(s: string, i: int, j: int)
    requires MatchesAt(s, i) && MatchesAt(s, j) && i < j
    ensures |ChannelIds(s)| >= 2
  {
    IdsFromSuffix(s, 0);
    assert s[0..] == s;
    TwoListedFrom(s, 0, i, j);
  }

  /** The prefix followed by a digit anywhere in `s` yields at least one id. */
  lemma PrefixAndDigitFound(s: string, d: char)
    requires PyStr.IsDigit(d) && PyStr.Contains(s, ChannelPrefix + [d])
    ensures |ChannelIds(s)| > 0
  {
    var m := ChannelPrefix + [d];
    var i :| 0 <= i <= |s| - |m| && PyStr.OccursAt(s, i, m);
    var p := |ChannelPrefix|;
    assert s[i..i + |m|] == m;
    assert s[i..i + p] == m[..p] == ChannelPrefix;
    assert s[i + p..][0] == m[p] == d;
    MatchFound(s, i);
  }

  /** No occurrence of the prefix, no match. */
  lemma {:induction false} NoPrefixNoIds(s: string)
    requires !PyStr.Contains(s, ChannelPrefix)
    ensures ChannelIds(s) == []
  {
    if s != [] {
      PyStr.PrefixContained(ChannelPrefix, s);
      PyStr.TailContained(s, ChannelPrefix);
      NoPrefixNoIds(s[1..]);
    }
  }

  /** A location made of the prefix, a digit run, and a tail without the prefix yields that digit run. */
  lemma SingleChannelId(id: string, tail: string)
    requires |id| > 0 && forall i :: 0 <= i < |id| ==> PyStr.IsDigit(id[i])
    requires tail == [] || !PyStr.IsDigit(tail[0])
    requires !PyStr.Contains(tail, ChannelPrefix)
    ensures ChannelIds(ChannelPrefix + id + tail) == [id]
  {
    var s := ChannelPrefix + id + tail;
    var p := |ChannelPrefix|;
    assert MatchesAtHead(s) && DigitRun(s[p..]) == |id| by {
      AfterPrefix(ChannelPrefix, id, tail);
      DigitRunOf(id, tail);
      assert PyStr.IsPrefix(ChannelPrefix, s);
    }
    assert s[p..p + |id|] == id && s[p + |id|..] == tail;
    assert ChannelIds(tail) == [] by {
      NoPrefixNoIds(tail);
    }
  }

  /** What follows `a` in `a + b + c` is `b + c`. */
  lemma AfterPrefix<T>(a: seq<T>, b: seq<T>, c: seq<T>)
    ensures (a + b + c)[|a|..] == b + c
  {
    assert a + b + c == a + (b + c);
  }

  lemma {:induction false} DigitRunOf(id: string, tail: string)
    requires forall i :: 0 <= i < |id| ==> PyStr.IsDigit(id[i])
    requires tail == [] || !PyStr.IsDigit(tail[0])
    ensures DigitRun(id + tail) == |id|
  {
    if id != [] {
      assert (id + tail)[1..] == id[1..] + tail;
      DigitRunOf(id[1..], tail);
    } else {
      assert id + tail == tail;
    }
  }

  // ---------------------------------------------------------------------
  // create_channel
  // ---------------------------------------------------------------------

  const AddChannelPath := "/admin/add_channel.cgi"

  /** `client.get(path)`, with no extra headers. */
  const AddChannelRequest := Request(GET, AddChannelPath, NoBody, map[])

  /** The prefix of every message `create_channel` raises after a reply. */
  function CreatePrefix(url: string): string
  {
    "failed call to " + url + "/" + AddChannelPath + " "
  }

  /** What `create_channel` returns (the new channel id) or raises, for the device's reply. */
  function CreateChannelOutcome(url: string, reply: Reply): Outcome<string>
  {
    match RaiseForStatus(reply)
    case Raise(e) => Raise(e)
    case Ok(r) =>
      var msg := CreatePrefix(url);
      if r.status == 200 then
        if r.history == [] then
          Fail(IndiscernibleResponseFromWebUiError(
            msg + "- expect response status 302, but got (" + PyStr.IntToString(r.status) + ")"))
        else if r.history[0].status != 302 then
          Fail(IndiscernibleResponseFromWebUiError(
            msg + "- expect response STATUS 302, but got (" + PyStr.IntToString(r.history[0].status) + ")"))
        else if "location" in r.history[0].headers then
          var location := r.history[0].headers["location"];
          var p := ChannelIds(location);
          if |p| == 1 then Ok(p[0])
          else Fail(IndiscernibleResponseFromWebUiError(
            msg + "- cannot parse channel created from location header(" + location + ")"))
        else
          Fail(IndiscernibleResponseFromWebUiError(msg + " - missing header location for response status 302"))
      else if r.status == 302 then
        Fail(IndiscernibleResponseFromWebUiError(msg + "- location header missing."))
      else
        Fail(IndiscernibleResponseFromWebUiError(
          msg + " - expect response status 302, but GOT (" + PyStr.IntToString(r.status) + ")"))
  }

  /** The redirect that announces a channel: a 302 first hop whose location has exactly one channel match. */
  predicate Announces(r: Response)
  {
    r.status == 200 && |r.history| > 0 && r.history[0].status == 302 &&
    "location" in r.history[0].headers && |ChannelIds(r.history[0].headers["location"])| == 1
  }

  /**
   * `create_channel` returns an id exactly for an announcing redirect; the
   * id is the single match in the first hop's location.
   */
  lemma CreateChannelDecodes(url: string, reply: Reply)
    ensures var out := CreateChannelOutcome(url, reply);
            out.Ok? <==> reply.Delivered? && Announces(reply.response)
    ensures var out := CreateChannelOutcome(url, reply);
            out.Ok? ==>
              |out.value| > 0 && (forall i :: 0 <= i < |out.value| ==> PyStr.IsDigit(out.value[i])) &&
              PyStr.Contains(reply.response.history[0].headers["location"], ChannelPrefix + out.value) &&
              [out.value] == ChannelIds(reply.response.history[0].headers["location"])
  {
    if reply.Delivered? && Announces(reply.response) {
      var p := ChannelIds(reply.response.history[0].headers["location"]);
      assert 0 < |p|;
    }
  }

  /** Every delivered reply the transport lets through and that does not announce a channel raises IndiscernibleResponseFromWebUiError. */
  lemma CreateChannelRejects(url: string, reply: Reply)
    ensures var out := CreateChannelOutcome(url, reply);
            reply.Delivered? && !(400 <= reply.response.status < 600) && out.Raise? ==>
              out.exc.Library? && out.exc.error.IndiscernibleResponseFromWebUiError?
  {
  }

  /** A location with two channel matches does not announce one channel: it cannot be parsed. */
  lemma CreateChannelAmbiguous(url: string, r: Response, i: int, j: int)
    requires r.status == 200 && |r.history| > 0 && r.history[0].status == 302 && "location" in r.history[0].headers
    requires MatchesAt(r.history[0].headers["location"], i) && MatchesAt(r.history[0].headers["location"], j) && i < j
    ensures CreateChannelOutcome(url, Delivered(r)) ==
              Fail(IndiscernibleResponseFromWebUiError(
                CreatePrefix(url) + "- cannot parse channel created from location header(" +
                r.history[0].headers["location"] + ")"))
  {
    TwoMatchesListed(r.history[0].headers["location"], i, j);
  }

  /** A 200 without redirect history is rejected, naming status 200. */
  lemma CreateChannelNoRedirect(url: string, r: Response)
    requires r.status == 200 && r.history == []
    ensures CreateChannelOutcome(url, Delivered(r)) ==
              Fail(IndiscernibleResponseFromWebUiError(
                CreatePrefix(url) + "- expect response status 302, but got (" + "200" + ")"))
  {
    assert PyStr.IntToString(200) == "200" by {
      assert PyStr.NatToString(20) == "20";
    }
  }

  /** A first hop other than 302 is rejected, naming that hop's status. */
  lemma CreateChannelWrongHop(url: string, r: Response)
    requires r.status == 200 && |r.history| > 0 && r.history[0].status != 302
    ensures CreateChannelOutcome(url, Delivered(r)) ==
              Fail(IndiscernibleResponseFromWebUiError(
                CreatePrefix(url) + "- expect response STATUS 302, but got (" +
                PyStr.IntToString(r.history[0].status) + ")"))
  {
  }

  /** A 302 hop without a location, or a final 302, is rejected. */
  lemma CreateChannelMissingLocation(url: string, r: Response)
    requires (r.status == 200 && |r.history| > 0 && r.history[0].status == 302 && "location" !in r.history[0].headers)
             || r.status == 302
    ensures CreateChannelOutcome(url, Delivered(r)) ==
              Fail(IndiscernibleResponseFromWebUiError(
                CreatePrefix(url) +
                (if r.status == 302 then "- location header missing."
                 else " - missing header location for response status 302")))
  {
  }

  /** Any other final status the transport lets through is rejected, naming it. */
  lemma CreateChannelUnexpectedStatus(url: string, r: Response)
    requires r.status != 200 && r.status != 302 && !(400 <= r.status < 600)
    ensures CreateChannelOutcome(url, Delivered(r)) ==
              Fail(IndiscernibleResponseFromWebUiError(
                CreatePrefix(url) + " - expect response status 302, but GOT (" +
                PyStr.IntToString(r.status) + ")"))
  {
  }

  /** The device's usual answer: a redirect to `/admin/channel57/mediasources` creates channel "57". */
  lemma CreateChannelExample(url: string, hop: Response, r: Response)
    requires hop.status == 302 && hop.headers == map["location" := "/admin/channel57/mediasources"]
    requires r.status == 200 && r.history == [hop]
    ensures CreateChannelOutcome(url, Delivered(r)) == Ok("57")
  {
    var tail := "/mediasources";
    assert "/admin/channel57/mediasources" == ChannelPrefix + "57" + tail;
    assert !PyStr.Contains(tail, ChannelPrefix);
    SingleChannelId("57", tail);
  }

  // ---------------------------------------------------------------------
  // rename_channel and set_channel_layout
  // ---------------------------------------------------------------------

  const RenamePath := "/admin/ajax/rename_channel.cgi"

  /** The rename form: the new name, the constant field id `channelname`, and the channel. */
  function RenameRequest(channelId: string, channelName: string): (req: Request)
    ensures req.verb == POST && req.path == RenamePath && req.extraHeaders == map[]
    ensures req.payload.Form? && req.payload.fields.Keys == {"value", "id", "channel"}
    ensures req.payload.fields["channel"] == channelId && req.payload.fields["value"] == channelName &&
            req.payload.fields["id"] == "channelname"
  {
    Request(POST, RenamePath, Form(map["value" := channelName, "id" := "channelname", "channel" := channelId]), map[])
  }

  /** The error of a call whose status is not 200. */
  function StatusError(url: string, path: string, status: int): Error
  {
    IndiscernibleResponseFromWebUiError(
      "failed to call " + url + "/" + path + " - response status(" + PyStr.IntToString(status) + ")")
  }

  /** `rename_channel` */
  function RenameChannelOutcome(url: string, channelName: string, reply: Reply): (out: Outcome<string>)
    ensures out.Ok? <==> reply.Delivered? && reply.response.status == 200
    ensures out.Ok? ==> out.value == channelName
    ensures reply.Delivered? && reply.response.status != 200 && !(400 <= reply.response.status < 600) ==>
              out == Fail(StatusError(url, RenamePath, reply.response.status))
    ensures reply.TransportFailed? ==> out == Raise(RequestException(reply.reason))
    ensures reply.Delivered? && 400 <= reply.response.status < 600 ==> out == Raise(HTTPError(reply.response.status))
  {
    match RaiseForStatus(reply)
    case Raise(e) => Raise(e)
    case Ok(r) => if r.status == 200 then Ok(channelName) else Fail(StatusError(url, RenamePath, r.status))
  }

  function LayoutPath(channelId: string, layoutId: string): string
  {
    "/admin/channel" + channelId + "/layouts/" + layoutId
  }

  /** The layout is posted as its JSON text. */
  function LayoutRequest(channelId: string, layoutJson: string, layoutId: string): (req: Request)
    ensures req.verb == POST && req.payload == Raw(layoutJson) && req.extraHeaders == map[]
    ensures req.path == "/admin/channel" + channelId + "/layouts/" + layoutId
  {
    Request(POST, LayoutPath(channelId, layoutId), Raw(layoutJson), map[])
  }

  /** `set_channel_layout`: the body of the device's answer on 200. */
  function SetChannelLayoutOutcome(url: string, channelId: string, layoutId: string, reply: Reply): (out: Outcome<string>)
    ensures out.Ok? <==> reply.Delivered? && reply.response.status == 200
    ensures out.Ok? ==> out.value == reply.response.text
    ensures reply.Delivered? && reply.response.status != 200 && !(400 <= reply.response.status < 600) ==>
              out == Fail(StatusError(url, LayoutPath(channelId, layoutId), reply.response.status))
    ensures reply.TransportFailed? ==> out == Raise(RequestException(reply.reason))
    ensures reply.Delivered? && 400 <= reply.response.status < 600 ==> out == Raise(HTTPError(reply.response.status))
  {
    match RaiseForStatus(reply)
    case Raise(e) => Raise(e)
    case Ok(r) =>
      if r.status == 200 then Ok(r.text) else Fail(StatusError(url, LayoutPath(channelId, layoutId), r.status))
  }

  // ---------------------------------------------------------------------
  // set_channel_rtmp
  // ---------------------------------------------------------------------

  /** `set_channel_rtmp`: the four stream fields, checked user first and password last. */
  function RtmpSubmission(channelId: string, rtmpUrl: string, rtmpStream: string, rtmpUsr: string, rtmpPwd: string)
    : (s: WebUiConfig.Submission)
    ensures s.path == "/admin/channel" + channelId + "/streamsetup"
    ensures s.params.Keys == {"rtmp_url", "rtmp_stream", "rtmp_username", "rtmp_password"}
    ensures s.params["rtmp_url"] == rtmpUrl && s.params["rtmp_stream"] == rtmpStream &&
            s.params["rtmp_username"] == rtmpUsr && s.params["rtmp_password"] == rtmpPwd
    ensures |s.checks| == 4
    ensures forall i :: 0 <= i < 4 ==> s.checks[i].check.GuardedIdValue?
    ensures s.checks[0] == WebUiConfig.CheckSpec("rtmp_usr expected(" + rtmpUsr + ")",
                                                  WebUiConfig.GuardedIdValue("rtmp_username", rtmpUsr))
    ensures s.checks[1] == WebUiConfig.CheckSpec("rtmp_url expected(" + rtmpUrl + ")",
                                                  WebUiConfig.GuardedIdValue("rtmp_url", rtmpUrl))
    ensures s.checks[2] == WebUiConfig.CheckSpec("rtmp_stream expected(" + rtmpStream + ")",
                                                  WebUiConfig.GuardedIdValue("rtmp_stream", rtmpStream))
    ensures s.checks[3] == WebUiConfig.CheckSpec("not the rtmp_pwd expected",
                                                  WebUiConfig.GuardedIdValue("rtmp_password", rtmpPwd))
  {
    WebUiConfig.Submission(
      "/admin/channel" + channelId + "/streamsetup",
      map["rtmp_url" := rtmpUrl, "rtmp_stream" := rtmpStream,
          "rtmp_username" := rtmpUsr, "rtmp_password" := rtmpPwd],
      [WebUiConfig.CheckSpec("rtmp_usr expected(" + rtmpUsr + ")", WebUiConfig.GuardedIdValue("rtmp_username", rtmpUsr)),
       WebUiConfig.CheckSpec("rtmp_url expected(" + rtmpUrl + ")", WebUiConfig.GuardedIdValue("rtmp_url", rtmpUrl)),
       WebUiConfig.CheckSpec("rtmp_stream expected(" + rtmpStream + ")", WebUiConfig.GuardedIdValue("rtmp_stream", rtmpStream)),
       WebUiConfig.CheckSpec("not the rtmp_pwd expected", WebUiConfig.GuardedIdValue("rtmp_password", rtmpPwd))])
  }

  /** Each posted field is what its check expects to read back under the same id. */
  lemma RtmpChecksMatchParams(channelId: string, rtmpUrl: string, rtmpStream: string, rtmpUsr: string, rtmpPwd: string)
    ensures var s := RtmpSubmission(channelId, rtmpUrl, rtmpStream, rtmpUsr, rtmpPwd);
            forall i :: 0 <= i < |s.checks| ==>
              s.checks[i].check.id in s.params && s.params[s.checks[i].check.id] == s.checks[i].check.value
  {
  }

  /** The guarded rtmp checks read `value` only after testing for it, so they never raise. */
  lemma {:induction false} GuardedChecksNeverRaise(doc: Tag, checks: seq<WebUiConfig.CheckSpec>, prefix: string)
    requires forall i :: 0 <= i < |checks| ==> checks[i].check.GuardedIdValue?
    ensures var r := WebUiConfig.RunChecks(doc, checks, prefix);
            r.Raise? ==> r.exc.Library? && r.exc.error.SettingConfigError?
  {
    if checks != [] {
      assert forall i :: 0 <= i < |checks[1..]| ==> checks[1..][i] == checks[i + 1];
      GuardedChecksNeverRaise(doc, checks[1..], prefix);
    }
  }

  /** Setting the RTMP stream fails only with the library's own errors once the page is a 200. */
  lemma RtmpOutcome(url: string, channelId: string, rtmpUrl: string, rtmpStream: string, rtmpUsr: string,
                    rtmpPwd: string, r: Response)
    requires r.status == 200
    ensures var out := WebUiConfig.ConfigurationOutcome(url, RtmpSubmission(channelId, rtmpUrl, rtmpStream, rtmpUsr, rtmpPwd), Delivered(r));
            out.Raise? ==> out.exc.Library? && out.exc.error.SettingConfigError?
  {
    var s := RtmpSubmission(channelId, rtmpUrl, rtmpStream, rtmpUsr, rtmpPwd);
    GuardedChecksNeverRaise(r.doc, s.checks, WebUiConfig.CallPrefix(url, s.path));
  }

  // ---------------------------------------------------------------------
  // delete_channel and delete_recorder
  // ---------------------------------------------------------------------

  /** The recorder guessed from an `m`-prefixed id: the text between its first and second `m`. */
  function RecorderSegment(channelId: string): (seg: Option<string>)
    ensures seg.Some? <==> |channelId| > 0 && channelId[0] == 'm'
    ensures seg.Some? ==> 'm' !in seg.value
  {
    if |channelId| > 0 && channelId[0] == 'm' then
      var parts := PyStr.Split(channelId, 'm');
      PyStr.SplitSecond(channelId[1..], 'm');
      assert [channelId[0]] + channelId[1..] == channelId;
      Some(parts[1])
    else None
  }

  /** `'/admin/recorder%s/archive' % recorder_id if recorder_id else '/admin/channel%s/status' % channel_id` */
  function DeletePath(channelId: string): string
  {
    match RecorderSegment(channelId)
    case Some(seg) => if seg != "" then "/admin/recorder" + seg + "/archive" else "/admin/channel" + channelId + "/status"
    case None => "/admin/channel" + channelId + "/status"
  }

  const DeletedMessage := "successfully deleted"

  /** `delete_channel` */
  function DeleteSubmission(channelId: string): (s: WebUiConfig.Submission)
    ensures s.params.Keys == {"deleteid", "deletemode"}
    ensures s.params["deleteid"] == channelId && s.params["deletemode"] == "trash"
    ensures s.path == DeletePath(channelId)
    ensures s.checks == [WebUiConfig.CheckSpec("successful deletion message not found",
                                               WebUiConfig.TextContains("successfully deleted"))]
  {
    WebUiConfig.Submission(
      DeletePath(channelId),
      map["deleteid" := channelId, "deletemode" := "trash"],
      [WebUiConfig.CheckSpec("successful deletion message not found", WebUiConfig.TextContains(DeletedMessage))])
  }

  /** `delete_recorder`: the channel id `m<recorder>`. */
  function DeleteRecorderSubmission(recorderId: string): (s: WebUiConfig.Submission)
    ensures "deleteid" in s.params && s.params["deleteid"] == "m" + recorderId
  {
    DeleteSubmission("m" + recorderId)
  }

  /**
   * An `m`-prefixed id targets the recorder named by the text up to the
   * next `m`; an empty segment falls back to the channel path.
   */
  lemma {:induction false} DeletePathOfRecorder(seg: string, rest: string)
    requires 'm' !in seg
    requires rest == [] || rest[0] == 'm'
    ensures DeletePath("m" + seg + rest) ==
              if seg != "" then "/admin/recorder" + seg + "/archive" else "/admin/channel" + "m" + seg + rest + "/status"
  {
    var id := "m" + seg + rest;
    assert id[1..] == seg + rest;
    PyStr.SplitSecond(seg + rest, 'm');
    SpanWithoutPrefix(seg, rest, 'm');
    assert (seg + rest)[..|seg|] == seg;
    assert ['m'] + (seg + rest) == id;
  }

  lemma {:induction false} SpanWithoutPrefix(a: string, b: string, c: char)
    requires c !in a
    requires b == [] || b[0] == c
    ensures PyStr.SpanWithout(a + b, c) == |a|
  {
    if a != [] {
      assert (a + b)[1..] == a[1..] + b;
      SpanWithoutPrefix(a[1..], b, c);
    } else {
      assert a + b == b;
    }
  }

  /** Any id not starting with `m` targets the channel's status page. */
  lemma DeletePathOfChannel(channelId: string)
    requires channelId == [] || channelId[0] != 'm'
    ensures DeletePath(channelId) == "/admin/channel" + channelId + "/status"
  {
  }

  /** `delete_recorder(r)` targets `/admin/recorder<r>/archive` for a non-empty `r` without `m`. */
  lemma DeleteRecorderPath(recorderId: string)
    requires recorderId != [] && 'm' !in recorderId
    ensures DeleteRecorderSubmission(recorderId).path == "/admin/recorder" + recorderId + "/archive"
  {
    DeletePathOfRecorder(recorderId, []);
    assert "m" + recorderId + [] == "m" + recorderId;
  }
}
