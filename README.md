# epipearl in Dafny

epipearl is a Python 2 client for the Epiphan Pearl video recorder. Most
of its settings calls do not go through an API. Instead they post a form
to the device's HTML web UI and then read the HTML page that comes back,
to decide whether the setting took. This project models that protocol
and proves properties of it:

- **Form scraping** (`WebUiScrape`). The controls of a form are folded
  into a name → value map that follows browser rules.
- **Banner detection** (`WebUiScrape`, `AdminWebUi`). Warning and error
  banners are read from the first warning container and the first error
  container.
- **Submit/verify classification** (`WebUiConfig`, `AdminWebUi`,
  `Admin`). A reply ends in one of four ways: a non-200 status, banners,
  the first failing success check, or success. The legacy variants
  return a status record instead of raising.
- **Redirect decoding and delete paths** (`WebUiChannel`).
  `create_channel` recovers the new channel id from the redirect
  history. `delete_channel` picks the recorder or the channel path.
- **The mhpearl settings merge** (`WebUiMhPearl`).
- **The client object** (`Client.Epipearl`). This covers the timeout
  default, header merging, the `key = value` parser, the status test of
  `set_params`, and the chained calls of `create_channel` and
  `delete_channel_or_recorder_by_name`.

Everything the device sends is an input value:

- A reply is `Http.Reply`. It is either a delivered `Response` (status,
  headers, redirect history, body text and parsed body tree) or a
  transport failure.
- The parsed HTML is `Html.Tag`: a tag name, an attribute map and
  children that are text or elements. `find_all` is a pre-order walk of
  the descendants. A `class_` filter matches the whole attribute or one
  of its words, split on ASCII whitespace as BeautifulSoup's non-Unicode
  `\s+` pattern does under Python 2.

Calls that talk to the device take a function from request to reply.
The client's own methods take a function from `Client.Transmission` to
reply. A transmission is everything the HTTP library is handed: verb,
base URL, path, payload, merged headers, timeout and credentials.

Python exceptions are values of `Errors.Exception`:

- the library's three errors, `SettingConfigError`,
  `IndiscernibleResponseFromWebUiError` and `RequestsError`;
- the ones the code lets escape: `HTTPError` from `raise_for_status`,
  `RequestException`, `KeyError`, `ValueError`, and the
  `UnboundLocalError` of the legacy HTTPError branch.

A call's result is an `Errors.Outcome`: either `Ok(value)` or
`Raise(exception)`.

Python's string operations are written out over `seq<char>` in
`PyStr`: `split`, `join`, `strip`, `splitlines`, `str(int)` and the
`in` substring test.

Each loop in the source is a method with loop invariants. It is proved
equal to a specification function, and the properties are proved about
that function as lemmas. The sources are `pluck_form_values`,
the radio-group loop of `pluck_form_input`, `pluck_form_select`, `scrape_msg`, the check loops, `get_params`, and
both loops of `delete_channel_or_recorder_by_name`.

## Model

| member | source | states |
|---|---|---|
| WebUiScrape.PickNameForTag | epipearl/endpoints/webui_scrape.py:47-56 | a key exists exactly when the tag has a `name` attribute, and then the key is that name |
| WebUiScrape.PluckInput | epipearl/endpoints/webui_scrape.py:59-105 | the method computes `pluck_form_input`'s value, radio loop included |
| WebUiScrape.ScanRadioGroup | epipearl/endpoints/webui_scrape.py:81-90 | the loop over the radio group returns what the first checked namesake gives, or None |
| WebUiScrape.RadioGroupFirstChecked | epipearl/endpoints/webui_scrape.py:81-90 | a radio group resolves to the choice of its first checked member with that name, and to None when no member is checked |
| WebUiScrape.SelectedValuesAppend | epipearl/endpoints/webui_scrape.py:112-118 | selected values follow document order: the values of a concatenation are the concatenated values |
| WebUiScrape.SelectedValuesEmpty | epipearl/endpoints/webui_scrape.py:109-120 | a select yields `[]` exactly when none of its options carries `selected` |
| WebUiScrape.PluckFormSelect | epipearl/endpoints/webui_scrape.py:109-120 | the loop returns the selected options' values in order (None for an option without `value`), and `[]` iff nothing is selected |
| WebUiScrape.SelectedOptions | epipearl/endpoints/webui_scrape.py:112-118 | the loop over the options collects the values of the selected ones, in order |
| WebUiScrape.PluckAppend | epipearl/endpoints/webui_scrape.py:30-43 | the scraping fold over `ts + [t]` is one more loop step after the fold over `ts` |
| WebUiScrape.PluckKeys | epipearl/endpoints/webui_scrape.py:30-43 | a key is in the result iff it was already there or some control in the sequence is submitted under it |
| WebUiScrape.PluckFirstWins | epipearl/endpoints/webui_scrape.py:33-36 | the first control carrying a name decides its value |
| WebUiScrape.PluckKeeps | epipearl/endpoints/webui_scrape.py:33-36 | a key already in the map keeps its value through the rest of the loop |
| WebUiScrape.PluckIgnoresOtherTags | epipearl/endpoints/webui_scrape.py:8-9 | tags other than input/select/textarea contribute nothing |
| WebUiScrape.OnlyControlsMatter | epipearl/endpoints/webui_scrape.py:28 | scraping all descendants gives the same map as scraping only the controls |
| WebUiScrape.FormKeys | epipearl/endpoints/webui_scrape.py:27-44 | the keys of the scraped map are exactly the names of the form's named controls |
| WebUiScrape.UnnamedControlIgnored | epipearl/endpoints/webui_scrape.py:33-36 | a control without `name` never adds a key: dropping it changes nothing |
| WebUiScrape.LaterDuplicateIgnored | epipearl/endpoints/webui_scrape.py:33-36 | a control whose name was already scraped leaves the map unchanged |
| WebUiScrape.FirstControlDecides | epipearl/endpoints/webui_scrape.py:30-43 | the value under a key is the value of the first control carrying that key |
| WebUiScrape.TextInputScrape | epipearl/endpoints/webui_scrape.py:70-73 | hidden/text/password/submit/search/button inputs yield their `value`, or "unknown" without one |
| WebUiScrape.CheckboxScrape | epipearl/endpoints/webui_scrape.py:75-76 | a checkbox yields true iff `checked` is present, whatever its value |
| WebUiScrape.TypelessInputScrape | epipearl/endpoints/webui_scrape.py:101-106 | an input without `type` is still keyed by its name, with value None |
| WebUiScrape.RadioScrape | epipearl/endpoints/webui_scrape.py:78-90 | a named radio yields the choice of the first tag in the form carrying its name and `checked`, else None |
| WebUiScrape.SelectScrape | epipearl/endpoints/webui_scrape.py:40-41 | a select is keyed by its name and always yields a list: its selected values, `[]` iff none is selected |
| WebUiScrape.TextareaScrape | epipearl/endpoints/webui_scrape.py:42-43 | a textarea yields its `.string` |
| WebUiScrape.PluckFormValues | epipearl/endpoints/webui_scrape.py:18-44 | the loop computes the scraped map, whose keys are exactly the names of the named controls |
| WebUiScrape.ReadBanner | epipearl/endpoints/webui_scrape.py:144-167 | a banner yields an entry iff two strings were read or the read failed under the synthetic-entry policy; an entry always has a message and a code, falls back to "unknown msg"/"unknown code" only for empty strings, and a failure entry is an `html_parsing_error` error |
| WebUiScrape.ReadBannersAppend | epipearl/endpoints/webui_scrape.py:144-167 | the entries of consecutive banners concatenate in banner order |
| WebUiScrape.ReadBannersShape | epipearl/endpoints/webui_scrape.py:144-167 | at most one entry per banner, each with a non-empty message and code |
| WebUiScrape.ReadBannersCategory | epipearl/endpoints/webui_scrape.py:158-167 | warning entries come only from a warning container; an error entry there is a synthetic parsing error; without the synthetic entry every entry has its container's category, and every banner with two strings yields one |
| WebUiScrape.ScrapeMsg | epipearl/endpoints/webui_scrape.py:137-168 | the loop reads only the banners of the first container; no container gives no entries; there are never more entries than banners |
| WebUiScrape.ReadInnerBanners | epipearl/endpoints/webui_scrape.py:144-167 | the loop over the inner banners gives one entry per banner read, in order, as `ReadBanners` specifies |
| WebUiScrape.ContainerEntries | epipearl/endpoints/webui_scrape.py:133 | every entry of an error container is an error; without the synthetic entry every entry of a warning container is a warning |
| WebUiScrape.ScrapeErrorOrder | epipearl/endpoints/webui_scrape.py:128-134 | the warning container's entries come first, and everything after them is an error |
| WebUiScrape.Msgs | epipearl/endpoints/webui_config.py:253 | the messages of the entries, one per entry, in order |
| WebUiConfig.ValueIs | epipearl/endpoints/webui_config.py:62 | reading `tag['value']` raises KeyError exactly when the attribute is absent, and is true iff it equals the value |
| WebUiConfig.Holds | epipearl/endpoints/webui_config.py:25-79 | a check raises KeyError exactly when its unguarded `value` read is reached on a tag without `value`; a passing id/name check means the id/name and the value match |
| WebUiConfig.CheckboxTestsExclusive | epipearl/endpoints/webui_config.py:25-38 | the checked and unchecked checkbox tests never raise, are never both true, and one of them holds iff the id matches |
| WebUiConfig.FindAll | epipearl/endpoints/webui_config.py:259 | `find_all(func)` keeps only tags the check holds for; it is empty iff the check is false on every tag; an exception is the one some tag raised |
| WebUiConfig.RunChecks | epipearl/endpoints/webui_config.py:258-265 | the checks succeed, with True, iff every check finds a tag |
| WebUiConfig.RunChecksErrors | epipearl/endpoints/webui_config.py:258-263 | a library failure of the check loop is SettingConfigError naming one check's emsg; anything else is the KeyError of an unguarded read |
| WebUiConfig.FoundWitness | epipearl/endpoints/webui_config.py:259-260 | a check that passes has a tag in the document it holds for |
| WebUiConfig.FirstFailingCheck | epipearl/endpoints/webui_config.py:258-263 | when the earlier checks pass and check k finds nothing, the result is SettingConfigError with check k's emsg; later checks are not run |
| WebUiConfig.VerifyChecks | epipearl/endpoints/webui_config.py:258-265 | the loop with its early raise computes the check result |
| WebUiConfig.ConfigurationRequest | epipearl/endpoints/webui_config.py:241-244 | configuration posts the params to the path, form-encoded |
| WebUiConfig.Configuration | epipearl/endpoints/webui_config.py:230-270 | the method's outcome is that of the reply to its form-encoded POST |
| WebUiConfig.ConfigurationNon200 | epipearl/endpoints/webui_config.py:267-270 | a non-200 reply raises IndiscernibleResponseFromWebUiError naming path and status, whatever the checks |
| WebUiConfig.ConfigurationBanners | epipearl/endpoints/webui_config.py:250-256 | a 200 reply with banners raises SettingConfigError containing every banner's message, whatever the checks |
| WebUiConfig.ConfigurationFirstFailing | epipearl/endpoints/webui_config.py:258-263 | with no banners, the first check that finds nothing raises SettingConfigError with its emsg |
| WebUiConfig.ConfigurationSuccess | epipearl/endpoints/webui_config.py:249-265 | the result is True iff the reply is a 200 without banners on which every check finds a tag |
| WebUiConfig.ConfigurationTransport | epipearl/endpoints/webui_config.py:241-244 | transport failures and 4xx/5xx statuses propagate as the HTTP library's exception |
| WebUiConfig.NamedForms | epipearl/endpoints/webui_config.py:313-317 | the forms found are exactly the `form` tags with that `name` |
| WebUiConfig.WebUiRequest | epipearl/endpoints/webui_config.py:287-298 | a GET without params, a POST of the params otherwise, form-encoded in both cases |
| WebUiConfig.WebUiConfiguration | epipearl/endpoints/webui_config.py:273-325 | the method's outcome is that of the reply to the GET or POST |
| WebUiConfig.WebUiConfigurationBanners | epipearl/endpoints/webui_config.py:306-311 | banners raise SettingConfigError with the joined messages, whatever the status |
| WebUiConfig.WebUiConfigurationOneForm | epipearl/endpoints/webui_config.py:317-320 | exactly one form with the name gives that form's scraped map |
| WebUiConfig.WebUiConfigurationNoUniqueForm | epipearl/endpoints/webui_config.py:321-325 | zero or several such forms raise "zero or more than one form named (...) returned!" |
| WebUiConfig.NtpSuccessMeans | epipearl/endpoints/webui_config.py:83-110 | a successful set_ntp saw the timezone and NTP selected, sync checked and the server value |
| WebUiConfig.TouchscreenSubmission | epipearl/endpoints/webui_config.py:113-156 | the posted timeout is `str(screen_timeout)` and the check expects that same string |
| WebUiConfig.TouchscreenDefault | epipearl/endpoints/webui_config.py:114 | the default timeout posts "600" |
| WebUiConfig.RemoteSupportSubmission | epipearl/endpoints/webui_config.py:159-185 | `permanent_logs` is "on" iff logs are enabled, else "", and there are no checks |
| WebUiConfig.RemoteSupportUnverified | epipearl/endpoints/webui_config.py:170-174 | with no checks, any 200 reply without banners is success |
| WebUiConfig.DeinterlacingSubmission | epipearl/endpoints/webui_config.py:203-227 | "on" with an ON check when enabled, " " with an OFF check otherwise, posted to the source's path |
| WebUiConfig.FindAllHit | epipearl/endpoints/webui_config.py:259-260 | a matching tag makes `find_all` non-empty |
| WebUiConfig.FindAllMiss | epipearl/endpoints/webui_config.py:259-260 | no matching tag makes `find_all` empty |
| WebUiConfig.DeinterlacingOnConfirmed | epipearl/endpoints/webui_config.py:207-213 | enabling succeeds when the page shows the checkbox checked |
| WebUiConfig.DeinterlacingOffRefuted | epipearl/endpoints/webui_config.py:214-221 | disabling fails with "deinterlacing expected to be OFF" when every such checkbox is still checked |
| WebUiConfig.DeinterlacingOffFails | epipearl/endpoints/webui_config.py:214-221 | disabling fails with that message when no unchecked checkbox is found |
| WebUiChannel.DigitRun | epipearl/endpoints/webui_channel.py:63 | the `\d+` run at the head of a string: all digits, and maximal |
| WebUiChannel.ChannelIds | epipearl/endpoints/webui_channel.py:63-64 | every match is a non-empty digit string that follows `/admin/channel` in the location |
| WebUiChannel.HeadMatch | epipearl/endpoints/webui_channel.py:63-64 | a match at the head is the match at index 0, and it is the first id found |
| WebUiChannel.ShiftMatch | epipearl/endpoints/webui_channel.py:63-64 | a match in a suffix of the location is a match in the location, with the same id |
| WebUiChannel.ChannelIdMaximal | epipearl/endpoints/webui_channel.py:63-64 | every id found is the whole (greedy) digit run after some occurrence of `/admin/channel` |
| WebUiChannel.MatchFound | epipearl/endpoints/webui_channel.py:63-64 | a match anywhere in the location gives at least one id |
| WebUiChannel.MatchAfter | epipearl/endpoints/webui_channel.py:63-64 | matches never overlap: a later match starts at or after the end of an earlier match's digit run |
| WebUiChannel.IdsFromSuffix | epipearl/endpoints/webui_channel.py:63-64 | the ids of any suffix are the `findall` scan resumed at that index |
| WebUiChannel.MatchListed | epipearl/endpoints/webui_channel.py:63-64 | every match is listed: the whole digit run after any occurrence of `/admin/channel` is one of the ids `findall` returns |
| WebUiChannel.TwoMatchesListed | epipearl/endpoints/webui_channel.py:63-64 | two matches at different places give at least two ids |
| WebUiChannel.PrefixAndDigitFound | epipearl/endpoints/webui_channel.py:63-64 | `/admin/channel` followed by a digit anywhere gives at least one id |
| WebUiChannel.NoPrefixNoIds | epipearl/endpoints/webui_channel.py:63-64 | a location without `/admin/channel` has no match |
| WebUiChannel.SingleChannelId | epipearl/endpoints/webui_channel.py:63-66 | `/admin/channel<id>` followed by a non-digit and no further prefix matches exactly `id` |
| WebUiChannel.DigitRunOf | epipearl/endpoints/webui_channel.py:63 | the digit run of digits followed by a non-digit is exactly those digits |
| WebUiChannel.CreateChannelDecodes | epipearl/endpoints/webui_channel.py:44-86 | an id is returned iff a 200 reply's first hop is a 302 whose location has exactly one match; the id is that single match `p[0]`, a digit string that follows `/admin/channel` in the location |
| WebUiChannel.CreateChannelRejects | epipearl/endpoints/webui_channel.py:44-86 | every other delivered reply that passes `raise_for_status` raises IndiscernibleResponseFromWebUiError |
| WebUiChannel.CreateChannelNoRedirect | epipearl/endpoints/webui_channel.py:50-54 | 200 without history raises "expect response status 302, but got (200)" |
| WebUiChannel.CreateChannelWrongHop | epipearl/endpoints/webui_channel.py:56-60 | a first hop that is not a 302 raises naming that hop's status |
| WebUiChannel.CreateChannelMissingLocation | epipearl/endpoints/webui_channel.py:73-82 | a 302 hop without location, or a final 302, raises the missing-location messages |
| WebUiChannel.CreateChannelUnexpectedStatus | epipearl/endpoints/webui_channel.py:83-86 | any other final status raises "expect response status 302, but GOT (s)" |
| WebUiChannel.CreateChannelAmbiguous | epipearl/endpoints/webui_channel.py:62-71 | a redirect whose location holds two channel matches raises "cannot parse channel created from location header(...)" |
| WebUiChannel.CreateChannelExample | epipearl/endpoints/webui_channel.py:62-66 | a redirect to `/admin/channel57/mediasources` returns "57" |
| WebUiChannel.RenameRequest | epipearl/endpoints/webui_channel.py:91-95 | rename posts exactly the fields `value` (the new name), `id` (`channelname`) and `channel` (the id) to the rename path, with no extra headers |
| WebUiChannel.RenameChannelOutcome | epipearl/endpoints/webui_channel.py:96-109 | rename returns the name iff the status is 200; another passing status raises naming it; a transport failure or 4xx/5xx re-raises the HTTP library's exception |
| WebUiChannel.LayoutRequest | epipearl/endpoints/webui_channel.py:115-117 | the layout JSON is posted to `/admin/channel<id>/layouts/<layout_id>`, with no extra headers |
| WebUiChannel.SetChannelLayoutOutcome | epipearl/endpoints/webui_channel.py:118-131 | the body is returned iff the status is 200; another passing status raises naming it; a transport failure or 4xx/5xx re-raises the HTTP library's exception |
| WebUiChannel.RtmpSubmission | epipearl/endpoints/webui_channel.py:134-183 | posts `rtmp_url`, `rtmp_stream`, `rtmp_username` and `rtmp_password` (exactly these keys, each the matching argument) to `/admin/channel<id>/streamsetup`, then checks the user, url, stream and password in that order, each against its own argument, with the source's messages, and each guarded by a presence test of `value` |
| WebUiChannel.RtmpChecksMatchParams | epipearl/endpoints/webui_channel.py:162-177 | each check expects exactly the value posted under its id |
| WebUiChannel.GuardedChecksNeverRaise | epipearl/endpoints/webui_channel.py:138-160 | guarded checks can only fail with SettingConfigError, never KeyError |
| WebUiChannel.RtmpOutcome | epipearl/endpoints/webui_channel.py:179-183 | on a 200 reply, set_channel_rtmp can only fail with SettingConfigError |
| WebUiChannel.RecorderSegment | epipearl/endpoints/webui_channel.py:198-205 | a recorder segment is guessed exactly for `m`-prefixed ids and holds no `m` |
| WebUiChannel.DeleteSubmission | epipearl/endpoints/webui_channel.py:207-219 | posts exactly `deleteid` (the original id) and `deletemode` ("trash") to the chosen delete path, and succeeds only if the page contains "successfully deleted", failing with "successful deletion message not found" |
| WebUiChannel.DeleteRecorderSubmission | epipearl/endpoints/webui_channel.py:237-243 | delete_recorder deletes the id `m<recorder>` |
| WebUiChannel.DeletePathOfRecorder | epipearl/endpoints/webui_channel.py:200-210 | `m<seg>...` targets `/admin/recorder<seg>/archive`, or the channel path when seg is empty |
| WebUiChannel.DeletePathOfChannel | epipearl/endpoints/webui_channel.py:209-210 | an id not starting with `m` targets `/admin/channel<id>/status` |
| WebUiChannel.DeleteRecorderPath | epipearl/endpoints/webui_channel.py:243 | delete_recorder(r) targets `/admin/recorder<r>/archive` |
| WebUiMhPearl.FirstMissing | epipearl/endpoints/webui_mhpearl.py:129-163 | the first snapshot key that is missing, or none when all are present |
| WebUiMhPearl.SetMhPearlSettings | epipearl/endpoints/webui_mhpearl.py:37-197 | the method raises the snapshot's KeyError or gives the configuration outcome of the merged post |
| WebUiMhPearl.FirstMissingIs | epipearl/endpoints/webui_mhpearl.py:129-163 | the reported key is the first missing one in check order |
| WebUiMhPearl.SnapshotKeysRequired | epipearl/endpoints/webui_mhpearl.py:129-163 | a snapshot without one of the five kept keys raises KeyError on the first missing one |
| WebUiMhPearl.MergeKeepsOtherKeys | epipearl/endpoints/webui_mhpearl.py:38-62 | the posted keys are the snapshot's keys, the overwritten keys and any flag key set to "on"; every other scraped key keeps its scraped value |
| WebUiMhPearl.DeviceFieldsFromClient | epipearl/endpoints/webui_mhpearl.py:42-44 | address, user name and password come from the client, not from the arguments |
| WebUiMhPearl.LiveChannelsJoined | epipearl/endpoints/webui_mhpearl.py:46 | the live channels are the comma-join of the list, which splits back into the list |
| WebUiMhPearl.FlagKeys | epipearl/endpoints/webui_mhpearl.py:166-190 | MANAGE_LIVE is set to "on" exactly when live_nonstop is false and BACKUP_AGENT exactly when backup_agent is true; otherwise the key keeps its presence in the snapshot; no other key is touched |
| WebUiMhPearl.FlagChecks | epipearl/endpoints/webui_mhpearl.py:166-190 | 18 checks are posted; the last two are the ON check of `manage_live` when live_nonstop is false (OFF check otherwise) and the ON check of `mh_backup` when backup_agent is true (OFF check otherwise) |
| WebUiMhPearl.AddFlags | epipearl/endpoints/webui_mhpearl.py:166-190 | the two flag branches set exactly the flag keys of `WithFlags` and append the flag checks in source order |
| WebUiMhPearl.OverwriteSnapshot | epipearl/endpoints/webui_mhpearl.py:41-52 | the twelve assignments give exactly the overwritten snapshot |
| WebUiMhPearl.OverwriteKeeps | epipearl/endpoints/webui_mhpearl.py:41-52 | a key outside the twelve overwritten ones keeps its presence and its scraped value |
| WebUiMhPearl.KeptNotOverwritten | epipearl/endpoints/webui_mhpearl.py:41-52 | none of the five kept keys is overwritten or is a flag key, so they are posted as scraped |
| WebUiMhPearl.OverwriteKeepsKept | epipearl/endpoints/webui_mhpearl.py:41-52 | the overwrite does not change which kept key is missing first, so the KeyError is the snapshot's |
| WebUiMhPearl.FirstMissingSame | epipearl/endpoints/webui_mhpearl.py:129-163 | two snapshots with the same membership on the kept keys fail on the same key |
| WebUiMhPearl.ReadKeptValues | epipearl/endpoints/webui_mhpearl.py:129-163 | the reads of the kept values stop at the first missing key, in check order |
| WebUiMhPearl.KeptValuesChecked | epipearl/endpoints/webui_mhpearl.py:129-163 | 18 checks are posted, and the five checks on the kept settings expect back exactly their scraped values |
| AdminWebUi.LegacyScrapeCategories | epipearl/endpoints/admin_webui.py:78-116 | the warning container's entries come first and are all warnings; every later entry is an error |
| AdminWebUi.LegacyChecks | epipearl/endpoints/admin_webui.py:66-75 | the status dict is 200 with "" iff every check finds a tag, else 400 |
| AdminWebUi.LegacyFirstFailing | epipearl/endpoints/admin_webui.py:66-71 | the first check that finds nothing gives `{400, emsg}`; later checks are not run |
| AdminWebUi.VerifyLegacy | epipearl/endpoints/admin_webui.py:66-75 | the loop with its early return computes the status dict |
| AdminWebUi.Configuration | epipearl/endpoints/admin_webui.py:24-75 | the method's outcome is that of the reply to its POST, with "failed to call url/path" for transport errors |
| AdminWebUi.LegacyIgnoresStatus | epipearl/endpoints/admin_webui.py:56-75 | no status test is made on a returned response |
| AdminWebUi.LegacySuccess | epipearl/endpoints/admin_webui.py:73-75 | without banners the result is `{200, ''}` iff every check passes |
| AdminWebUi.LegacyBanners | epipearl/endpoints/admin_webui.py:58-63 | banners raise SettingConfigError with the `\n`-joined messages |
| AdminWebUi.LegacyTransportFailure | epipearl/endpoints/admin_webui.py:49-55 | transport errors other than HTTPError become RequestsError |
| AdminWebUi.LegacyHttpError | epipearl/endpoints/admin_webui.py:44-48 | the HTTPError branch reads the unbound `r` and raises UnboundLocalError |
| Admin.ParamsRequest | epipearl/endpoints/admin.py:25-39 | get_params and set_params send a GET to `admin/channel<channel>/<script>`, with the params as the query and no extra headers |
| Admin.GetParams | epipearl/endpoints/admin.py:28-33 | the result is the status and the body text whenever the reply passes `raise_for_status`; otherwise the transport exception or HTTPError propagates |
| Admin.SetParams | epipearl/endpoints/admin.py:37-42 | the result is the status with an always empty text; otherwise the transport exception or HTTPError propagates |
| Admin.SetDateAndTime | epipearl/endpoints/admin.py:47-97 | set_date_and_time is the legacy configuration against `admin/timesynccfg` with its own transport message |
| Http.RaiseForStatus | epipearl/epipearl.py:93 | a reply passes iff it was delivered with a status outside 400-599; otherwise the transport error or HTTPError is raised |
| Html.FindAllByClassMembers | epipearl/endpoints/webui_scrape.py:130 | `find_all` finds a tag iff it is a descendant with the tag name and the class |
| Html.FilterByClassMembers | epipearl/endpoints/webui_scrape.py:141-143 | the filter keeps a tag iff it is in the list with the tag name and the class |
| Html.FilterByClassAppend | epipearl/endpoints/webui_scrape.py:141-143 | filtering keeps document order: the matches of `a + b` are those of `a` followed by those of `b` |
| PyStr.Split | epipearl/epipearl.py:128 | `split` gives at least one piece and no piece holds the separator |
| PyStr.SplitCount | epipearl/epipearl.py:128 | `split` gives one piece more than there are separators |
| PyStr.JoinSplit | epipearl/endpoints/webui_mhpearl.py:46 | joining the pieces of a split gives the string back |
| PyStr.SplitJoin | epipearl/endpoints/webui_mhpearl.py:46 | splitting a join of separator-free parts gives the parts back |
| PyStr.SplitSecond | epipearl/endpoints/webui_channel.py:201-202 | the second piece of `m...`.split('m') is the text up to the next `m` |
| PyStr.Strip | epipearl/epipearl.py:128 | `strip` removes exactly the leading and trailing whitespace: what it drops on each side is whitespace and the result has none at either end |
| PyStr.SplitLines | epipearl/epipearl.py:127 | `splitlines` gives lines without line breaks, and none for the empty string |
| PyStr.SplitLinesOfLine | epipearl/epipearl.py:127 | a text without breaks is one line; a line followed by one boundary (`\r\n` counting as one) is that line, then the lines of the rest |
| PyStr.JoinContains | epipearl/endpoints/webui_config.py:254 | each joined message occurs in the joined text |
| PyStr.NatToStringValue | epipearl/endpoints/webui_config.py:150 | the decimal digits of `str(n)` denote n |
| PyStr.IntToString | epipearl/endpoints/webui_config.py:150 | `str(i)` is the digits, with a minus sign for negatives |
| Client.EffectiveTimeout | epipearl/epipearl.py:69 | the given timeout, or 5 when it is None or 0 |
| Client.Epipearl.constructor | epipearl/epipearl.py:65-74 | the client keeps url and credentials, the effective timeout and the default headers |
| Client.Epipearl.Headers | epipearl/epipearl.py:82-83 | the request headers are the defaults overridden key by key by the extra headers |
| Client.Epipearl.Send | epipearl/epipearl.py:77-113 | get/post send the merged headers, the credentials and the timeout, then apply `raise_for_status` |
| Client.ParseLine | epipearl/epipearl.py:128 | a line unpacks iff it holds exactly one `=`; otherwise ValueError |
| Client.ParseLineOfPair | epipearl/epipearl.py:128 | a line `k=v` with no other `=` parses to the stripped key and value |
| Client.ParseLinesOk | epipearl/epipearl.py:126-130 | parsing succeeds iff every line has exactly one `=`; a failure is ValueError |
| Client.ParseLinesKeeps | epipearl/epipearl.py:127-129 | a key no later line mentions keeps its value |
| Client.ParseLinesLastWins | epipearl/epipearl.py:127-129 | the value of a key is the one from the last line carrying it |
| Client.Epipearl.GetParams | epipearl/epipearl.py:122-130 | the loop computes the parsed map, or passes the request's exception through |
| Client.SuccessStatusRange | epipearl/epipearl.py:135 | `status / 100 == 2` under floor division iff 200 <= status < 300 |
| Client.Epipearl.SetParams | epipearl/epipearl.py:133-135 | set_params returns True iff the status is in 200-299 whenever the request passes; a transport failure or 4xx/5xx raises the HTTP library's exception |
| Client.Epipearl.CreateChannel | epipearl/epipearl.py:183-217 | the three steps run in order up to the first failure, each failure wrapped with its own message |
| Client.Epipearl.CreateChannelSteps | epipearl/epipearl.py:189-217 | every failure is RequestsError; the rename runs only after a successful create and the layout only after a successful rename, both on the created id; True iff all three steps succeed |
| Client.MatchingIds | epipearl/epipearl.py:360-364 | an id is collected iff some entry has both keys, that name and that id |
| Client.QuotedEach | epipearl/epipearl.py:373-374 | each id in the failure message is printed as the unicode literal `u'<id>'`, in list order |
| Client.Epipearl.DeleteChannelOrRecorderByName | epipearl/epipearl.py:333-378 | the method's outcome and the ids it deleted are those of the specification run |
| Client.Epipearl.DeleteAll | epipearl/epipearl.py:369-378 | the delete loop computes the specification run |
| Client.Epipearl.DeleteAllShape | epipearl/epipearl.py:369-376 | deletes are tried in list order: a prefix of the ids, all of them on success, every earlier delete succeeded, and a failure is the last one tried, reported as RequestsError |
| Client.Epipearl.DeleteByNameSteps | epipearl/epipearl.py:340-378 | a failed or non-200 sysinfo raises RequestsError without deleting; no match returns True without deleting; otherwise the deletes follow list order up to the first failure |

## Left out

- HTTP transport is a parameter: `requests.get/post`, `urljoin` and `HTTPBasicAuth`. The device's replies are a function of the request, so device state that changes between calls is not modelled.
- HTML parsing by BeautifulSoup is left out. The parsed tree is an input, and no tree read ever raises.
- `default_useragent` is left out because it queries the platform. The user agent string is a constructor parameter.
- Logging calls are left out.
- `json.dumps` of the layout is left out. The layout is given as its JSON text.
- Only the single pattern `/admin/channel(\d+)` is modelled, by a hand-written scanner. General regular expressions are left out.
- The `NotImplementedError` stubs are left out: `put`, `delete`, `update_firmware`, `set_afu`, `set_upnp`, `create_recorder`, `set_recorder_channels`, `set_recorder_settings`, and the stubs of `AdminWebUi`.
- Client methods that cannot run as written are left out:
  - `set_permanent_logs` calls a method that does not exist.
  - `set_channel_rtmp` and `set_recording_settings` use misspelled names.
  - `delete_channel` calls `delete_recorder` with a keyword it does not take.
  - `create_recorder` calls stubs.
- The endpoints those client methods stand for are modelled directly: `WebUiChannel.RtmpSubmission`, `WebUiChannel.DeleteSubmission` and `WebUiConfig.RemoteSupportSubmission`.
- The client's `set_ntp`, `set_touchscreen` and `set_mhpearl_settings` only delegate. Their endpoints are modelled in `WebUiConfig` and `WebUiMhPearl`.
- `get_mhpearl_settings` is left out because it calls a `scrape_form_values` that does not exist. The scraped snapshot is an input map of strings to `WebUiMhPearl.SetMhPearlSettings`.
- `AdminAjax.get_sysinfo` is not part of this model. Its result, or its exception, is an input to `Client.Epipearl.DeleteChannelOrRecorderByName`.
- The `EpipearlError` import names a class that `errors.py` does not define. Only the three library errors are modelled.
- The second constructor argument of `RequestsError(msg, e)` is not modelled, only the message.
- `HTTPError`'s message is simplified to "<status> Client Error" or "<status> Server Error", without the reason and URL.
- Header names are compared exactly. The HTTP library's case-insensitive header lookup is not modelled.
- The check functions are the finite set of kinds the source builds (`WebUiConfig.Check`), not arbitrary callables.
- `repr` escaping is not modelled. The id list in the delete failure message is rendered as `[u'a', u'b']` without escaping.
- `ListRepr` has no contract because it is message text only.
- The client's timeout is an optional integer. Python also accepts a float or a (connect, read) pair, and a falsy `0.0` also falls back to the default; neither is modelled.
- The sysinfo channel entries have an optional string name and id. An entry with a non-string id (such as an integer) would make `startswith` raise AttributeError inside `delete_channel`, which `delete_channel_or_recorder_by_name` turns into RequestsError with the list printed as `[1, 2]`; that case is not modelled.
- WebUiScrape.ScrapeMsg: it reads a banner's strings from the tree, which never fails. The `except Exception` branch is reached through the `StringsRead` fault input of `WebUiScrape.ReadBanner`.
- Client.Epipearl.CreateChannel: the `sent` output lists the requests issued. Python returns only True.
- Client.Epipearl.DeleteChannelOrRecorderByName: the second output lists the ids whose delete was sent. Python returns only True.
