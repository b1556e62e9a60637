/**
 * The mh_pearl capture-agent settings page (epipearl/endpoints/webui_mhpearl.py):
 * the current settings are overwritten with the caller's and the client's
 * values, posted back, and the returned page is checked field by field.
 */
module WebUiMhPearl {
  import opened Wrappers
  import opened Errors
  import opened Http
  import PyStr
  import WebUiConfig

  const MhCfgPath := "/admin/mhcfg"

  /** The caller's arguments to `set_mhpearl_settings`. */
  datatype MhPearlArgs = MhPearlArgs(
    deviceName: string,
    deviceChannel: string,
    deviceLiveChannels: seq<string>,
    outputStreams: string,
    liveNonstop: bool,
    fileSearchRange: string,
    adminServerUrl: string,
    adminServerUsr: string,
    adminServerPwd: string,
    updateFrequency: string,
    backupAgent: bool)

  /** The defaults of the keyword arguments. */
  const DefaultArgs := MhPearlArgs("", "", [], "", true, "", "", "", "", "120", false)

  /** The client fields the settings copy. */
  datatype Device = Device(url: string, user: string, passwd: string)

  /** The keys overwritten unconditionally. */
  const OverwrittenKeys: set<string> := {
    "DEVICE_NAME", "DEVICE_ADDRESS", "DEVICE_USERNAME", "DEVICE_PASSWORD", "DEVICE_CHANNEL",
    "DEVICE_LIVE_CHANNELS", "DEVICE_LIVE_STREAMS", "FILE_SEARCH_RANGE", "ADMIN_SERVER_URL",
    "ADMIN_SERVER_USER", "ADMIN_SERVER_PASSWD", "UPDATE_FREQUENCY"}

  /** The snapshot keys whose current values the checks expect back, in the order they are read. */
  const KeptKeys: seq<string> := ["CONNECTTIMEOUT", "LOW_SPEED_TIME", "MAX_INGEST", "INGEST_DELAY", "NUMBER_OF_RETRIES"]

  /** The first kept key missing from the snapshot, if any. */
  function FirstMissing(current: map<string, string>, keys: seq<string>): (k: Option<string>)
    ensures k.None? <==> forall i :: 0 <= i < |keys| ==> keys[i] in current
    ensures k.Some? ==> k.value in keys && k.value !in current
  {
    if keys == [] then None
    else if keys[0] !in current then Some(keys[0])
    else
      assert forall i :: 1 <= i < |keys| ==> keys[i] == keys[1..][i - 1];
      FirstMissing(current, keys[1..])
  }

  /** The snapshot with the caller's and the client's values written over it. */
  function Overwrite(current: map<string, string>, device: Device, args: MhPearlArgs): map<string, string>
  {
    current[
      "DEVICE_NAME" := args.deviceName][
      "DEVICE_ADDRESS" := device.url][
      "DEVICE_USERNAME" := device.user][
      "DEVICE_PASSWORD" := device.passwd][
      "DEVICE_CHANNEL" := args.deviceChannel][
      "DEVICE_LIVE_CHANNELS" := PyStr.Join(args.deviceLiveChannels, ",")][
      "DEVICE_LIVE_STREAMS" := args.outputStreams][
      "FILE_SEARCH_RANGE" := args.fileSearchRange][
      "ADMIN_SERVER_URL" := args.adminServerUrl][
      "ADMIN_SERVER_USER" := args.adminServerUsr][
      "ADMIN_SERVER_PASSWD" := args.adminServerPwd][
      "UPDATE_FREQUENCY" := args.updateFrequency]
  }

  /** The settings posted: the overwritten snapshot with the flag-dependent keys. */
  function MergedSettings(current: map<string, string>, device: Device, args: MhPearlArgs): map<string, string>
  {
    WithFlags(Overwrite(current, device, args), args)
  }

  /** MANAGE_LIVE set when live streaming is not nonstop, BACKUP_AGENT when the backup agent is on. */
  function WithFlags(settings: map<string, string>, args: MhPearlArgs): map<string, string>
  {
    var live := if !args.liveNonstop then settings["MANAGE_LIVE" := "on"] else settings;
    if args.backupAgent then live["BACKUP_AGENT" := "on"] else live
  }

  /** A key outside the overwritten ones is untouched by the overwrite. */
  lemma OverwriteKeeps(current: map<string, string>, device: Device, args: MhPearlArgs, k: string)
    requires k !in OverwrittenKeys
    ensures k in Overwrite(current, device, args) <==> k in current
    ensures k in current ==> Overwrite(current, device, args)[k] == current[k]
  {
  }

  /** None of the kept keys is overwritten or set by a flag. */
  lemma KeptNotOverwritten()
    ensures forall i :: 0 <= i < |KeptKeys| ==>
              KeptKeys[i] !in OverwrittenKeys && KeptKeys[i] != "MANAGE_LIVE" && KeptKeys[i] != "BACKUP_AGENT"
  {
  }

  /** The checks on the fields the overwrite sets, in the order they are built. */
  function ClientChecks(device: Device, args: MhPearlArgs): (c: seq<WebUiConfig.CheckSpec>)
    ensures |c| == 11
  {
    var live := PyStr.Join(args.deviceLiveChannels, ",");
    [WebUiConfig.CheckSpec("device_name expected(" + args.deviceName + ")", WebUiConfig.InputIdValue("ca_name", args.deviceName)),
     WebUiConfig.CheckSpec("device_username expected(" + device.user + ")", WebUiConfig.InputIdValue("ca_user", device.user)),
     WebUiConfig.CheckSpec("not the device_password expected", WebUiConfig.InputIdValue("ca_pass", device.passwd)),
     WebUiConfig.CheckSpec("device_channel expected(" + args.deviceChannel + ")", WebUiConfig.InputIdValue("ca_chan", args.deviceChannel)),
     WebUiConfig.CheckSpec("live channels expected(" + live + ")", WebUiConfig.InputIdValue("ca_live_chan", live)),
     WebUiConfig.CheckSpec("output live streams expected: " + args.outputStreams, WebUiConfig.TextareaIdValue("ca_live_stream", args.outputStreams)),
     WebUiConfig.CheckSpec("file_search_range expected(" + args.fileSearchRange + ")", WebUiConfig.InputIdValue("ca_range", args.fileSearchRange)),
     WebUiConfig.CheckSpec("admin_server_url expected(" + args.adminServerUrl + ")", WebUiConfig.InputIdValue("mh_host", args.adminServerUrl)),
     WebUiConfig.CheckSpec("admin_server_user expected(" + args.adminServerUsr + ")", WebUiConfig.InputIdValue("mh_user", args.adminServerUsr)),
     WebUiConfig.CheckSpec("not the admin_server_passwd expected", WebUiConfig.InputIdValue("mh_pass", args.adminServerPwd)),
     WebUiConfig.CheckSpec("update_frequency expected(" + args.updateFrequency + ")", WebUiConfig.InputIdValue("mh_freq", args.updateFrequency))]
  }

  /** The checks on the kept keys, one per key of `KeptKeys` and in that order. */
  function KeptChecks(current: map<string, string>): (c: seq<WebUiConfig.CheckSpec>)
    requires forall i :: 0 <= i < |KeptKeys| ==> KeptKeys[i] in current
    ensures |c| == 5
  {
    assert KeptKeys[0] in current && KeptKeys[1] in current && KeptKeys[2] in current &&
           KeptKeys[3] in current && KeptKeys[4] in current;
    [WebUiConfig.CheckSpec("connecttimeout expected(" + current["CONNECTTIMEOUT"] + ")", WebUiConfig.InputIdValue("mh_connecttimeout", current["CONNECTTIMEOUT"])),
     WebUiConfig.CheckSpec("low_speed_time expected(" + current["LOW_SPEED_TIME"] + ")", WebUiConfig.InputIdValue("mh_low_speed", current["LOW_SPEED_TIME"])),
     WebUiConfig.CheckSpec("max_ingest expected(" + current["MAX_INGEST"] + ")", WebUiConfig.InputNameValue("MAX_INGEST", current["MAX_INGEST"])),
     WebUiConfig.CheckSpec("ingest_delay expected(" + current["INGEST_DELAY"] + ")", WebUiConfig.InputNameValue("INGEST_DELAY", current["INGEST_DELAY"])),
     WebUiConfig.CheckSpec("number_of_retries expected(" + current["NUMBER_OF_RETRIES"] + ")", WebUiConfig.InputNameValue("NUMBER_OF_RETRIES", current["NUMBER_OF_RETRIES"]))]
  }

  /** The check on `manage_live`: checked when the agent manages live streaming, unchecked otherwise. */
  function LiveCheck(liveNonstop: bool): WebUiConfig.CheckSpec
  {
    if !liveNonstop then WebUiConfig.CheckSpec("live_nonstop expected(\"ON\")", WebUiConfig.CheckboxChecked("manage_live"))
    else WebUiConfig.CheckSpec("live_nonstop expected(\"OFF\")", WebUiConfig.CheckboxUnchecked("manage_live"))
  }

  /** The check on `mh_backup`. */
  function BackupCheck(backupAgent: bool): WebUiConfig.CheckSpec
  {
    if backupAgent then WebUiConfig.CheckSpec("backup_agent expected(\"ON\")", WebUiConfig.CheckboxChecked("mh_backup"))
    else WebUiConfig.CheckSpec("backup_agent expected(\"OFF\")", WebUiConfig.CheckboxUnchecked("mh_backup"))
  }

  /** The checks run on the returned page; the snapshot must hold every kept key. */
  function MhPearlChecks(current: map<string, string>, device: Device, args: MhPearlArgs): seq<WebUiConfig.CheckSpec>
    requires forall i :: 0 <= i < |KeptKeys| ==> KeptKeys[i] in current
  {
    ClientChecks(device, args) + KeptChecks(current) + [LiveCheck(args.liveNonstop), BackupCheck(args.backupAgent)]
  }

  /** The form post `set_mhpearl_settings` builds, or the KeyError of the first kept key missing. */
  function MhPearlSubmission(current: map<string, string>, device: Device, args: MhPearlArgs)
    : Outcome<WebUiConfig.Submission>
  {
    match FirstMissing(current, KeptKeys)
    case Some(k) => Raise(KeyError(k))
    case None => Ok(WebUiConfig.Submission(MhCfgPath, MergedSettings(current, device, args), MhPearlChecks(current, device, args)))
  }

  /** What `set_mhpearl_settings` returns or raises. */
  function SetMhPearlSettingsOutcome(current: map<string, string>, device: Device, args: MhPearlArgs, reply: Reply)
    : Outcome<bool>
  {
    match MhPearlSubmission(current, device, args)
    case Raise(e) => Raise(e)
    case Ok(s) => WebUiConfig.ConfigurationOutcome(device.url, s, reply)
  }

  /**
   * `set_mhpearl_settings`: overwrite the snapshot `current` in place,
   * read the kept values, build the check list entry by entry, and post.
   */
  method SetMhPearlSettings(current: map<string, string>, device: Device, args: MhPearlArgs, post: Request -> Reply)
    returns (out: Outcome<bool>)
    ensures MhPearlSubmission(current, device, args).Raise? ==> out == Raise(MhPearlSubmission(current, device, args).exc)
    ensures MhPearlSubmission(current, device, args).Ok? ==>
              var s := MhPearlSubmission(current, device, args).value;
              out == SetMhPearlSettingsOutcome(current, device, args, post(WebUiConfig.ConfigurationRequest(s)))
  {
    var settings := OverwriteSnapshot(current, device, args);
    var missing := ReadKeptValues(settings);
    OverwriteKeepsKept(current, device, args);
    if missing.Some? {
      return Raise(KeyError(missing.value));
    }
    var checks;
    settings, checks := AddFlags(settings, ClientChecks(device, args) + KeptChecks(current), args);
    out := WebUiConfig.Configuration(device.url, WebUiConfig.Submission(MhCfgPath, settings, checks), post);
  }

  /** The overwrites, one assignment per key. */
  method OverwriteSnapshot(current: map<string, string>, device: Device, args: MhPearlArgs)
    returns (settings: map<string, string>)
    ensures settings == Overwrite(current, device, args)
  {
    settings := current;
    settings := settings["DEVICE_NAME" := args.deviceName];
    settings := settings["DEVICE_ADDRESS" := device.url];
    settings := settings["DEVICE_USERNAME" := device.user];
    settings := settings["DEVICE_PASSWORD" := device.passwd];
    settings := settings["DEVICE_CHANNEL" := args.deviceChannel];
    settings := settings["DEVICE_LIVE_CHANNELS" := PyStr.Join(args.deviceLiveChannels, ",")];
    settings := settings["DEVICE_LIVE_STREAMS" := args.outputStreams];
    settings := settings["FILE_SEARCH_RANGE" := args.fileSearchRange];
    settings := settings["ADMIN_SERVER_URL" := args.adminServerUrl];
    settings := settings["ADMIN_SERVER_USER" := args.adminServerUsr];
    settings := settings["ADMIN_SERVER_PASSWD" := args.adminServerPwd];
    settings := settings["UPDATE_FREQUENCY" := args.updateFrequency];
  }

  /** The reads `current[...]` of the kept values while the check list is built: the first that fails. */
  method ReadKeptValues(settings: map<string, string>) returns (missing: Option<string>)
    ensures missing == FirstMissing(settings, KeptKeys)
  {
    var i := 0;
    while i < |KeptKeys|
      invariant 0 <= i <= |KeptKeys|
      invariant forall j :: 0 <= j < i ==> KeptKeys[j] in settings
    {
      if KeptKeys[i] !in settings {
        FirstMissingIs(settings, KeptKeys, i);
        return Some(KeptKeys[i]);
      }
      i := i + 1;
    }
    return None;
  }

  /** The flag-dependent key and check for `live_nonstop`, then for `backup_agent`. */
  method AddFlags(overwritten: map<string, string>, fieldChecks: seq<WebUiConfig.CheckSpec>, args: MhPearlArgs)
    returns (settings: map<string, string>, checks: seq<WebUiConfig.CheckSpec>)
    ensures settings == WithFlags(overwritten, args)
    ensures checks == fieldChecks + [LiveCheck(args.liveNonstop), BackupCheck(args.backupAgent)]
  {
    settings := overwritten;
    checks := fieldChecks;
    if !args.liveNonstop {
      settings := settings["MANAGE_LIVE" := "on"];
      checks := checks + [WebUiConfig.CheckSpec("live_nonstop expected(\"ON\")", WebUiConfig.CheckboxChecked("manage_live"))];
    } else {
      checks := checks + [WebUiConfig.CheckSpec("live_nonstop expected(\"OFF\")", WebUiConfig.CheckboxUnchecked("manage_live"))];
    }
    if args.backupAgent {
      settings := settings["BACKUP_AGENT" := "on"];
      checks := checks + [WebUiConfig.CheckSpec("backup_agent expected(\"ON\")", WebUiConfig.CheckboxChecked("mh_backup"))];
    } else {
      checks := checks + [WebUiConfig.CheckSpec("backup_agent expected(\"OFF\")", WebUiConfig.CheckboxUnchecked("mh_backup"))];
    }
  }

  /** The overwrite never touches a kept key, so the first missing one is the same before and after it. */
  lemma OverwriteKeepsKept(current: map<string, string>, device: Device, args: MhPearlArgs)
    ensures FirstMissing(Overwrite(current, device, args), KeptKeys) == FirstMissing(current, KeptKeys)
  {
    KeptNotOverwritten();
    forall i | 0 <= i < |KeptKeys|
      ensures KeptKeys[i] in Overwrite(current, device, args) <==> KeptKeys[i] in current
    {
      OverwriteKeeps(current, device, args, KeptKeys[i]);
    }
    FirstMissingSame(Overwrite(current, device, args), current, KeptKeys);
  }

  /** Two maps with the same membership on `keys` have the same first missing key. */
  lemma {:induction false} FirstMissingSame(m1: map<string, string>, m2: map<string, string>, keys: seq<string>)
    requires forall i :: 0 <= i < |keys| ==> (keys[i] in m1 <==> keys[i] in m2)
    ensures FirstMissing(m1, keys) == FirstMissing(m2, keys)
  {
    if keys != [] {
      assert forall i :: 1 <= i < |keys| ==> keys[1..][i - 1] == keys[i];
      FirstMissingSame(m1, m2, keys[1..]);
    }
  }

  lemma {:induction false} FirstMissingIs(current: map<string, string>, keys: seq<string>, i: int)
    requires 0 <= i < |keys| && keys[i] !in current
    requires forall j :: 0 <= j < i ==> keys[j] in current
    ensures FirstMissing(current, keys) == Some(keys[i])
  {
    if i > 0 {
      FirstMissingIs(current, keys[1..], i - 1);
    }
  }

  /** The snapshot must carry every kept key; the first one missing is the KeyError raised. */
  lemma SnapshotKeysRequired(current: map<string, string>, device: Device, args: MhPearlArgs, i: int)
    requires 0 <= i < |KeptKeys| && KeptKeys[i] !in current
    requires forall j :: 0 <= j < i ==> KeptKeys[j] in current
    ensures MhPearlSubmission(current, device, args) == Raise(KeyError(KeptKeys[i]))
  {
    FirstMissingIs(current, KeptKeys, i);
  }

  /**
   * Every snapshot key that is not overwritten keeps its value, and the
   * posted keys are the snapshot's plus the overwritten ones.
   */
  lemma MergeKeepsOtherKeys(current: map<string, string>, device: Device, args: MhPearlArgs)
    ensures var m := MergedSettings(current, device, args);
            m.Keys == current.Keys + OverwrittenKeys +
                      (if !args.liveNonstop then {"MANAGE_LIVE"} else {}) +
                      (if args.backupAgent then {"BACKUP_AGENT"} else {})
    ensures var m := MergedSettings(current, device, args);
            forall k ::
              (k in current && k !in OverwrittenKeys &&
               (k == "MANAGE_LIVE" ==> args.liveNonstop) && (k == "BACKUP_AGENT" ==> !args.backupAgent))
              ==> m[k] == current[k]
  {
  }

  /** The device fields come from the client, not from the arguments. */
  lemma DeviceFieldsFromClient(current: map<string, string>, device: Device, args: MhPearlArgs)
    ensures var m := MergedSettings(current, device, args);
            m["DEVICE_ADDRESS"] == device.url && m["DEVICE_USERNAME"] == device.user &&
            m["DEVICE_PASSWORD"] == device.passwd
  {
  }

  /** The live channels are sent comma-joined, so splitting on commas gives the list back. */
  lemma LiveChannelsJoined(current: map<string, string>, device: Device, args: MhPearlArgs)
    requires |args.deviceLiveChannels| >= 1
    requires forall i :: 0 <= i < |args.deviceLiveChannels| ==> ',' !in args.deviceLiveChannels[i]
    ensures PyStr.Split(MergedSettings(current, device, args)["DEVICE_LIVE_CHANNELS"], ',') == args.deviceLiveChannels
  {
    PyStr.SplitJoin(args.deviceLiveChannels, ',');
  }

  /**
   * MANAGE_LIVE is set to "on" only when live streaming is not nonstop;
   * otherwise it stays as scraped. BACKUP_AGENT is set to "on" only when
   * the backup agent is enabled. No other key is touched.
   */
  lemma FlagKeys(settings: map<string, string>, args: MhPearlArgs)
    ensures var m := WithFlags(settings, args);
            (!args.liveNonstop ==> "MANAGE_LIVE" in m && m["MANAGE_LIVE"] == "on") &&
            (args.liveNonstop ==> ("MANAGE_LIVE" in m <==> "MANAGE_LIVE" in settings)) &&
            (args.backupAgent ==> "BACKUP_AGENT" in m && m["BACKUP_AGENT"] == "on") &&
            (!args.backupAgent ==> ("BACKUP_AGENT" in m <==> "BACKUP_AGENT" in settings))
    ensures var m := WithFlags(settings, args);
            forall k :: k != "MANAGE_LIVE" && k != "BACKUP_AGENT" ==>
              (k in m <==> k in settings) && (k in settings ==> m[k] == settings[k])
  {
  }

  /** The last two checks follow the flags: ON checks for the keys set to "on", OFF checks otherwise. */
  lemma FlagChecks(current: map<string, string>, device: Device, args: MhPearlArgs)
    requires forall i :: 0 <= i < |KeptKeys| ==> KeptKeys[i] in current
    ensures var c := MhPearlChecks(current, device, args);
            |c| == 18 &&
            c[16].check == (if !args.liveNonstop then WebUiConfig.CheckboxChecked("manage_live")
                            else WebUiConfig.CheckboxUnchecked("manage_live")) &&
            c[17].check == (if args.backupAgent then WebUiConfig.CheckboxChecked("mh_backup")
                            else WebUiConfig.CheckboxUnchecked("mh_backup"))
  {
  }

  /** The checks on the kept keys expect back exactly the scraped values. */
  lemma KeptValuesChecked(current: map<string, string>, device: Device, args: MhPearlArgs)
    requires forall i :: 0 <= i < |KeptKeys| ==> KeptKeys[i] in current
    ensures var c := MhPearlChecks(current, device, args);
            |c| == 18 && forall i :: 0 <= i < |KeptKeys| ==> c[11 + i].check.value == current[KeptKeys[i]]
  {
    var c := KeptChecks(current);
    assert c[0].check.value == current[KeptKeys[0]] && c[1].check.value == current[KeptKeys[1]] &&
           c[2].check.value == current[KeptKeys[2]] && c[3].check.value == current[KeptKeys[3]] &&
           c[4].check.value == current[KeptKeys[4]];
  }
}
