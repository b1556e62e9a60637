/**
 * The form scraper and the banner detector of the web UI client
 * (epipearl/endpoints/webui_scrape.py): the name -> value map a browser
 * would submit for a form, and the warning/error banners the device
 * renders inline in its pages.
 */
module WebUiScrape {
  import opened Wrappers
  import opened Html

  /** The scraped value of one named control. */
  datatype FormValue =
    | Str(s: string)                        // a text-like input, a radio choice, a textarea
    | Flag(b: bool)                         // a checkbox
    | Options(selected: seq<Option<string>>) // a select: the selected options' values
    | Absent                                // Python's None

  // ---------------------------------------------------------------------
  // Form controls
  // ---------------------------------------------------------------------

  predicate CanHandleFormElement(t: Tag)
  {
    t.name in ["input", "select", "textarea"]
  }

  /** The closure `filter_by_attr_name(name)` applied to `t`. */
  predicate FilterByAttrName(name: string, t: Tag)
  {
    AttrIs(t, "name", name)
  }

  /** The key a control is submitted under: its `name`, or nothing. */
  function PickNameForTag(t: Tag): (key: Option<string>)
    ensures key.Some? <==> "name" in t.attrs
    ensures key.Some? ==> FilterByAttrName(key.value, t)
  {
    if "name" in t.attrs then Some(t.attrs["name"]) else None
  }

  /** Input types whose value is their `value` attribute. */
  const TextLikeTypes: seq<string> := ["hidden", "text", "password", "submit", "search", "button"]

  /** The value of an `input` element; `form` is searched for radio siblings. */
  function PluckFormInput(t: Tag, form: Tag): FormValue
  {
    if "type" in t.attrs then
      var ty := t.attrs["type"];
      if ty in TextLikeTypes then
        Str(if "value" in t.attrs then t.attrs["value"] else "unknown")
      else if ty == "checkbox" then
        Flag("checked" in t.attrs)
      else if ty == "radio" then
        if "name" in t.attrs then RadioGroupValue(Descendants(form), t.attrs["name"])
        else if "value" in t.attrs && "checked" in t.attrs then Str(t.attrs["value"])
        else Absent
      else Absent
    else Absent
  }

  /** The first tag of `group` named `name` and carrying `checked` decides. */
  function RadioGroupValue(group: seq<Tag>, name: string): FormValue
  {
    if group == [] then Absent
    else if FilterByAttrName(name, group[0]) && "checked" in group[0].attrs then RadioChoice(group[0])
    else RadioGroupValue(group[1..], name)
  }

  /** A checked radio: its `value`, else its `.string`. */
  function RadioChoice(r: Tag): FormValue
  {
    if "value" in r.attrs then Str(r.attrs["value"]) else StringValue(r)
  }

  /** `t.string` as a form value. */
  function StringValue(t: Tag): FormValue
  {
    match StringOf(t)
    case Some(s) => Str(s)
    case None => Absent
  }

  predicate IsRadioChecked(t: Tag, name: string)
  {
    FilterByAttrName(name, t) && "checked" in t.attrs
  }

  /** A radio group resolves to its first checked member, and to None when no member is checked. */
  lemma {:induction false} RadioGroupFirstChecked(group: seq<Tag>, name: string)
    ensures (forall j :: 0 <= j < |group| ==> !IsRadioChecked(group[j], name)) ==>
              RadioGroupValue(group, name) == Absent
    ensures forall i :: 0 <= i < |group| && IsRadioChecked(group[i], name) &&
                        (forall j :: 0 <= j < i ==> !IsRadioChecked(group[j], name)) ==>
              RadioGroupValue(group, name) == RadioChoice(group[i])
  {
    if group != [] {
      RadioGroupFirstChecked(group[1..], name);
      forall i | 0 <= i < |group| && IsRadioChecked(group[i], name) &&
                 (forall j :: 0 <= j < i ==> !IsRadioChecked(group[j], name))
        ensures RadioGroupValue(group, name) == RadioChoice(group[i])
      {
        if i > 0 {
          assert !IsRadioChecked(group[0], name);
          assert IsRadioChecked(group[1..][i - 1], name);
          forall j | 0 <= j < i - 1 ensures !IsRadioChecked(group[1..][j], name) {
            assert group[1..][j] == group[j + 1];
          }
        }
      }
      if forall j :: 0 <= j < |group| ==> !IsRadioChecked(group[j], name) {
        forall j | 0 <= j < |group[1..]| ensures !IsRadioChecked(group[1..][j], name) {
          assert group[1..][j] == group[j + 1];
        }
      }
    }
  }

  /** `pluck_form_input`, whose radio branch scans the group in a loop. */
  method PluckInput(t: Tag, form: Tag) returns (v: FormValue)
    ensures v == PluckFormInput(t, form)
  {
    v := Absent;
    if "type" in t.attrs {
      var ty := t.attrs["type"];
      if ty in TextLikeTypes {
        v := Str(if "value" in t.attrs then t.attrs["value"] else "unknown");
      } else if ty == "checkbox" {
        v := Flag("checked" in t.attrs);
      } else if ty == "radio" {
        if "name" in t.attrs {
          v := ScanRadioGroup(Descendants(form), t.attrs["name"]);
        } else if "value" in t.attrs && "checked" in t.attrs {
          v := Str(t.attrs["value"]);
        }
      }
    }
  }

  /** The loop over a radio group: the first checked namesake decides. */
  method ScanRadioGroup(group: seq<Tag>, name: string) returns (v: FormValue)
    ensures v == RadioGroupValue(group, name)
  {
    var i := 0;
    while i < |group|
      invariant 0 <= i <= |group|
      invariant RadioGroupValue(group[i..], name) == RadioGroupValue(group, name)
    {
      var r := group[i];
      assert group[i..][0] == r && group[i..][1..] == group[i + 1..];
      if FilterByAttrName(name, r) && "checked" in r.attrs {
        return RadioChoice(r);
      }
      i := i + 1;
    }
    return Absent;
  }

  // ---------------------------------------------------------------------
  // Selects
  // ---------------------------------------------------------------------

  /** `select.find_all('option')` */
  function OptionTags(select: Tag): seq<Tag>
  {
    OnlyOptions(Descendants(select))
  }

  function OnlyOptions(ts: seq<Tag>): (r: seq<Tag>)
    ensures forall i :: 0 <= i < |r| ==> r[i].name == "option"
  {
    if ts == [] then [] else (if ts[0].name == "option" then [ts[0]] else []) + OnlyOptions(ts[1..])
  }

  /** The values of the selected options, in document order (None for an option without `value`). */
  function SelectedValues(opts: seq<Tag>): seq<Option<string>>
  {
    if opts == [] then []
    else SelectedValue(opts[0]) + SelectedValues(opts[1..])
  }

  function SelectedValue(opt: Tag): seq<Option<string>>
  {
    if "selected" !in opt.attrs then []
    else if "value" in opt.attrs then [Some(opt.attrs["value"])]
    else [None]
  }

  /** Selected values follow document order: the list of a concatenation is the concatenation of the lists. */
  lemma {:induction false} SelectedValuesAppend(a: seq<Tag>, b: seq<Tag>)
    ensures SelectedValues(a + b) == SelectedValues(a) + SelectedValues(b)
  {
    if a != [] {
      SelectedValuesAppend(a[1..], b);
      assert (a + b)[0] == a[0];
      assert (a + b)[1..] == a[1..] + b;
      calc {
        SelectedValues(a + b);
        SelectedValue(a[0]) + SelectedValues(a[1..] + b);
        SelectedValue(a[0]) + (SelectedValues(a[1..]) + SelectedValues(b));
      }
    } else {
      assert a + b == b;
    }
  }

  /** One more option extends the list by that option's own contribution. */
  lemma SelectedValuesSnoc(a: seq<Tag>, t: Tag)
    ensures SelectedValues(a + [t]) == SelectedValues(a) + SelectedValue(t)
  {
    SelectedValuesAppend(a, [t]);
    assert [t][1..] == [];
  }

  /** A select yields `[]` exactly when none of its options is selected. */
  lemma {:induction false} SelectedValuesEmpty(opts: seq<Tag>)
    ensures SelectedValues(opts) == [] <==> forall i :: 0 <= i < |opts| ==> "selected" !in opts[i].attrs
  {
    if opts != [] {
      SelectedValuesEmpty(opts[1..]);
      assert forall i :: 1 <= i < |opts| ==> opts[1..][i - 1] == opts[i];
    }
  }

  /** The options of a select, scanned in document order. */
  method PluckFormSelect(select: Tag) returns (selected: seq<Option<string>>)
    ensures selected == SelectedValues(OptionTags(select))
    ensures selected == [] <==> forall i :: 0 <= i < |OptionTags(select)| ==> "selected" !in OptionTags(select)[i].attrs
  {
    var opts := OptionTags(select);
    selected := SelectedOptions(opts);
    SelectedValuesEmpty(opts);
  }

  /** The loop of `pluck_form_select` over the options, in document order. */
  method SelectedOptions(opts: seq<Tag>) returns (selected: seq<Option<string>>)
    ensures selected == SelectedValues(opts)
  {
    selected := [];
    var i := 0;
    while i < |opts|
      invariant 0 <= i <= |opts|
      invariant selected == SelectedValues(opts[..i])
    {
      var opt := opts[i];
      if "selected" in opt.attrs {
        if "value" in opt.attrs {
          selected := selected + [Some(opt.attrs["value"])];
        } else {
          selected := selected + [None];
        }
      }
      assert opts[..i + 1] == opts[..i] + [opt];
      SelectedValuesSnoc(opts[..i], opt);
      i := i + 1;
    }
    assert opts[..i] == opts;
  }


  // ---------------------------------------------------------------------
  // The whole form
  // ---------------------------------------------------------------------

  /** `form(can_handle_form_element)`: the controls below the form, in document order. */
  function Controls(form: Tag): (cs: seq<Tag>)
    ensures forall i :: 0 <= i < |cs| ==> CanHandleFormElement(cs[i])
  {
    OnlyControls(Descendants(form))
  }

  function OnlyControls(ts: seq<Tag>): (r: seq<Tag>)
    ensures forall i :: 0 <= i < |r| ==> CanHandleFormElement(r[i])
  {
    if ts == [] then []
    else (if CanHandleFormElement(ts[0]) then [ts[0]] else []) + OnlyControls(ts[1..])
  }

  /** The value a control contributes under its name. */
  function ControlValue(t: Tag, form: Tag): FormValue
  {
    if t.name == "input" then PluckFormInput(t, form)
    else if t.name == "select" then Options(SelectedValues(OptionTags(t)))
    else StringValue(t)
  }

  /** One turn of the scraping loop: a named control not seen yet adds its value. */
  function Step(form: Tag, acc: map<string, FormValue>, t: Tag): map<string, FormValue>
  {
    match PickNameForTag(t)
    case None => acc
    case Some(key) =>
      if key in acc || !CanHandleFormElement(t) then acc else acc[key := ControlValue(t, form)]
  }

  /** The scraping loop over `ts`, starting from `acc`. */
  function Pluck(form: Tag, ts: seq<Tag>, acc: map<string, FormValue>): map<string, FormValue>
    decreases |ts|
  {
    if ts == [] then acc else Pluck(form, ts[1..], Step(form, acc, ts[0]))
  }

  /** One turn of the loop, taken off the front. */
  lemma PluckUnroll(form: Tag, ts: seq<Tag>, acc: map<string, FormValue>)
    requires ts != []
    ensures Pluck(form, ts, acc) == Pluck(form, ts[1..], Step(form, acc, ts[0]))
  {
  }

  /** The name -> value map scraped from `form`. */
  function FormValues(form: Tag): map<string, FormValue>
  {
    Pluck(form, Controls(form), map[])
  }

  /** `t` is a control submitted under `key`. */
  predicate NamedControl(t: Tag, key: string)
  {
    CanHandleFormElement(t) && FilterByAttrName(key, t)
  }

  /** `ts[i]` is the first control in `ts` submitted under `key`. */
  predicate FirstNamed(ts: seq<Tag>, i: int, key: string)
  {
    0 <= i < |ts| && NamedControl(ts[i], key) && forall j :: 0 <= j < i ==> !NamedControl(ts[j], key)
  }

  lemma {:induction false} PluckAppend(form: Tag, ts: seq<Tag>, t: Tag, acc: map<string, FormValue>)
    ensures Pluck(form, ts + [t], acc) == Step(form, Pluck(form, ts, acc), t)
  {
    if ts != [] {
      assert (ts + [t])[1..] == ts[1..] + [t];
      PluckAppend(form, ts[1..], t, Step(form, acc, ts[0]));
    }
  }

  /** Keys: exactly the names of the named controls (plus what `acc` already had). */
  lemma {:induction false} PluckKeys(form: Tag, ts: seq<Tag>, acc: map<string, FormValue>)
    ensures forall key :: key in Pluck(form, ts, acc) <==>
              key in acc || exists i :: 0 <= i < |ts| && NamedControl(ts[i], key)
  {
    if ts != [] {
      PluckKeys(form, ts[1..], Step(form, acc, ts[0]));
      forall key
        ensures key in Pluck(form, ts, acc) <==> key in acc || exists i :: 0 <= i < |ts| && NamedControl(ts[i], key)
      {
        if exists i :: 0 <= i < |ts| && NamedControl(ts[i], key) {
          var i :| 0 <= i < |ts| && NamedControl(ts[i], key);
          if i > 0 { assert ts[1..][i - 1] == ts[i]; }
        }
        if exists i :: 0 <= i < |ts[1..]| && NamedControl(ts[1..][i], key) {
          var i :| 0 <= i < |ts[1..]| && NamedControl(ts[1..][i], key);
          assert ts[i + 1] == ts[1..][i];
        }
      }
    }
  }

  /** The first control carrying a name decides its value; later ones are skipped. */
  lemma {:induction false} PluckFirstWins(form: Tag, ts: seq<Tag>, acc: map<string, FormValue>, i: int, key: string)
    requires FirstNamed(ts, i, key)
    requires key !in acc
    ensures key in Pluck(form, ts, acc)
    ensures Pluck(form, ts, acc)[key] == ControlValue(ts[i], form)
  {
    var acc' := Step(form, acc, ts[0]);
    if i == 0 {
      assert acc'[key] == ControlValue(ts[0], form);
      PluckKeeps(form, ts[1..], acc', key);
    } else {
      assert !NamedControl(ts[0], key);
      assert key !in acc';
      assert FirstNamed(ts[1..], i - 1, key) by {
        forall j | 0 <= j < i - 1 ensures !NamedControl(ts[1..][j], key) {
          assert ts[1..][j] == ts[j + 1];
        }
      }
      PluckFirstWins(form, ts[1..], acc', i - 1, key);
    }
  }

  /** A key already in the map keeps its value through the rest of the loop. */
  lemma {:induction false} PluckKeeps(form: Tag, ts: seq<Tag>, acc: map<string, FormValue>, key: string)
    requires key in acc
    ensures key in Pluck(form, ts, acc) && Pluck(form, ts, acc)[key] == acc[key]
  {
    if ts != [] {
      PluckKeeps(form, ts[1..], Step(form, acc, ts[0]), key);
    }
  }

  /** Tags that are not input/select/textarea contribute nothing. */
  lemma {:induction false} PluckIgnoresOtherTags(form: Tag, ts: seq<Tag>, acc: map<string, FormValue>)
    ensures Pluck(form, ts, acc) == Pluck(form, OnlyControls(ts), acc)
  {
    if ts != [] {
      PluckIgnoresOtherTags(form, ts[1..], Step(form, acc, ts[0]));
      if !CanHandleFormElement(ts[0]) {
        assert Step(form, acc, ts[0]) == acc;
        assert OnlyControls(ts) == [] + OnlyControls(ts[1..]);
        assert OnlyControls(ts) == OnlyControls(ts[1..]);
      } else {
        assert OnlyControls(ts) == [ts[0]] + OnlyControls(ts[1..]);
        assert ([ts[0]] + OnlyControls(ts[1..]))[1..] == OnlyControls(ts[1..]);
      }
    }
  }

  /** Scraping the descendants unfiltered gives the same map as scraping the controls. */
  lemma OnlyControlsMatter(form: Tag)
    ensures Pluck(form, Descendants(form), map[]) == FormValues(form)
  {
    PluckIgnoresOtherTags(form, Descendants(form), map[]);
  }

  /** The keys of the scraped map are the names of the named controls, and nothing else. */
  lemma FormKeys(form: Tag)
    ensures forall key :: key in FormValues(form) <==>
              exists i :: 0 <= i < |Controls(form)| && FilterByAttrName(key, Controls(form)[i])
  {
    PluckKeys(form, Controls(form), map[]);
  }

  /** No control without a name contributes a key: removing it changes nothing. */
  lemma {:induction false} UnnamedControlIgnored(form: Tag, ts: seq<Tag>, t: Tag, acc: map<string, FormValue>)
    requires "name" !in t.attrs
    ensures Pluck(form, ts + [t], acc) == Pluck(form, ts, acc)
  {
    PluckAppend(form, ts, t, acc);
  }

  /** A control whose name was already scraped leaves the map unchanged. */
  lemma {:induction false} LaterDuplicateIgnored(form: Tag, ts: seq<Tag>, t: Tag, key: string)
    requires FilterByAttrName(key, t)
    requires exists i :: 0 <= i < |ts| && NamedControl(ts[i], key)
    ensures Pluck(form, ts + [t], map[]) == Pluck(form, ts, map[])
  {
    PluckAppend(form, ts, t, map[]);
    PluckKeys(form, ts, map[]);
  }

  /** The value under a key is that of the first control carrying the key. */
  lemma FirstControlDecides(form: Tag, i: int, key: string)
    requires FirstNamed(Controls(form), i, key)
    ensures key in FormValues(form)
    ensures FormValues(form)[key] == ControlValue(Controls(form)[i], form)
  {
    PluckFirstWins(form, Controls(form), map[], i, key);
  }

  /** Text-like inputs yield their `value`, or "unknown" without one. */
  lemma TextInputScrape(form: Tag, i: int, key: string)
    requires FirstNamed(Controls(form), i, key)
    requires Controls(form)[i].name == "input" && "type" in Controls(form)[i].attrs
    requires Controls(form)[i].attrs["type"] in TextLikeTypes
    ensures key in FormValues(form)
    ensures FormValues(form)[key] ==
              Str(if "value" in Controls(form)[i].attrs then Controls(form)[i].attrs["value"] else "unknown")
  {
    FirstControlDecides(form, i, key);
  }

  /** A checkbox yields true iff `checked` is present, whatever its `value`. */
  lemma CheckboxScrape(form: Tag, i: int, key: string)
    requires FirstNamed(Controls(form), i, key)
    requires Controls(form)[i].name == "input" && AttrIs(Controls(form)[i], "type", "checkbox")
    ensures key in FormValues(form)
    ensures FormValues(form)[key] == Flag("checked" in Controls(form)[i].attrs)
  {
    FirstControlDecides(form, i, key);
  }

  /** An input without `type` is still keyed by its name, with value None. */
  lemma TypelessInputScrape(form: Tag, i: int, key: string)
    requires FirstNamed(Controls(form), i, key)
    requires Controls(form)[i].name == "input" && "type" !in Controls(form)[i].attrs
    ensures key in FormValues(form) && FormValues(form)[key] == Absent
  {
    FirstControlDecides(form, i, key);
  }

  /**
   * A named radio yields the choice of the first tag in the form carrying
   * its name and `checked`, and None when there is none.
   */
  lemma RadioScrape(form: Tag, i: int, key: string)
    requires FirstNamed(Controls(form), i, key)
    requires Controls(form)[i].name == "input" && AttrIs(Controls(form)[i], "type", "radio")
    ensures key in FormValues(form)
    ensures (forall j :: 0 <= j < |Descendants(form)| ==> !IsRadioChecked(Descendants(form)[j], key)) ==>
              FormValues(form)[key] == Absent
    ensures forall j :: 0 <= j < |Descendants(form)| && IsRadioChecked(Descendants(form)[j], key) &&
                        (forall k :: 0 <= k < j ==> !IsRadioChecked(Descendants(form)[k], key)) ==>
              FormValues(form)[key] == RadioChoice(Descendants(form)[j])
  {
    FirstControlDecides(form, i, key);
    RadioGroupFirstChecked(Descendants(form), key);
  }

  /** A select always yields a list: its selected options' values, `[]` when none is selected. */
  lemma SelectScrape(form: Tag, i: int, key: string)
    requires FirstNamed(Controls(form), i, key)
    requires Controls(form)[i].name == "select"
    ensures key in FormValues(form)
    ensures FormValues(form)[key] == Options(SelectedValues(OptionTags(Controls(form)[i])))
    ensures FormValues(form)[key] == Options([]) <==>
              forall j :: 0 <= j < |OptionTags(Controls(form)[i])| ==> "selected" !in OptionTags(Controls(form)[i])[j].attrs
  {
    FirstControlDecides(form, i, key);
    SelectedValuesEmpty(OptionTags(Controls(form)[i]));
  }

  /** A textarea yields its `.string`. */
  lemma TextareaScrape(form: Tag, i: int, key: string)
    requires FirstNamed(Controls(form), i, key)
    requires Controls(form)[i].name == "textarea"
    ensures key in FormValues(form)
    ensures FormValues(form)[key] == StringValue(Controls(form)[i])
  {
    FirstControlDecides(form, i, key);
  }

  /** The scraping loop: walks the controls, keeping the first value seen per name. */
  method PluckFormValues(form: Tag) returns (result: map<string, FormValue>)
    ensures result == FormValues(form)
    ensures forall key :: key in result <==>
              exists i :: 0 <= i < |Controls(form)| && FilterByAttrName(key, Controls(form)[i])
  {
    result := map[];
    var tags := Controls(form);
    var i := 0;
    while i < |tags|
      invariant 0 <= i <= |tags|
      invariant Pluck(form, tags[i..], result) == FormValues(form)
    {
      var t := tags[i];
      ghost var before := result;
      PluckUnroll(form, tags[i..], result);
      assert tags[i..][0] == t && tags[i..][1..] == tags[i + 1..];
      var key := PickNameForTag(t);
      if key.Some? && key.value !in result {
        if t.name == "input" {
          var v := PluckInput(t, form);
          result := result[key.value := v];
        } else if t.name == "select" {
          var selected := PluckFormSelect(t);
          result := result[key.value := Options(selected)];
        } else if t.name == "textarea" {
          result := result[key.value := StringValue(t)];
        }
      }
      assert result == Step(form, before, t);
      i := i + 1;
    }
    FormKeys(form);
  }

  // ---------------------------------------------------------------------
  // Banners
  // ---------------------------------------------------------------------

  datatype Category = Warning | Error

  /** One inline banner: `{'cat': ..., 'msg': ..., 'code': ...}`. */
  datatype Banner = Banner(cat: Category, msg: string, code: string)

  /**
   * A banner's string generator: the pieces it yields, then either
   * exhaustion (StopIteration) or an unexpected exception with a message.
   */
  datatype StringsRead = StringsRead(items: seq<string>, fault: Option<string>)

  /** What the `except Exception` branch does: add a synthetic entry, or only log. */
  datatype FaultPolicy = SyntheticEntry | LogOnly

  const ParsingErrorCode := "html_parsing_error"
  const ParsingErrorPrefix := "could not scrape epiphan webui response: "

  /** The entry one banner contributes, if any. */
  function ReadBanner(lines: StringsRead, warning: bool, policy: FaultPolicy): (b: Option<Banner>)
    ensures b.Some? <==> |lines.items| >= 2 || (lines.fault.Some? && policy == SyntheticEntry)
    ensures b.Some? ==> b.value.msg != "" && b.value.code != ""
    ensures |lines.items| >= 2 ==>
              b.value.cat == (if warning then Warning else Error) &&
              (lines.items[0] != "" ==> b.value.msg == lines.items[0]) &&
              (lines.items[1] != "" ==> b.value.code == lines.items[1]) &&
              (lines.items[0] == "" ==> b.value.msg == "unknown msg") &&
              (lines.items[1] == "" ==> b.value.code == "unknown code")
    ensures b.Some? && |lines.items| < 2 ==>
              b.value == Banner(Error, ParsingErrorPrefix + lines.fault.value, ParsingErrorCode)
  {
    if |lines.items| >= 2 then
      var msg := lines.items[0];
      var code := lines.items[1];
      Some(Banner(if warning then Warning else Error,
                  if msg != "" then msg else "unknown msg",
                  if code != "" then code else "unknown code"))
    else if lines.fault.Some? && policy == SyntheticEntry then
      Some(Banner(Error, ParsingErrorPrefix + lines.fault.value, ParsingErrorCode))
    else None
  }

  /** The entry of one banner as a list of zero or one entries. */
  function EntryOf(lines: StringsRead, warning: bool, policy: FaultPolicy): seq<Banner>
  {
    match ReadBanner(lines, warning, policy)
    case Some(b) => [b]
    case None => []
  }

  function ReadBanners(texts: seq<StringsRead>, warning: bool, policy: FaultPolicy): seq<Banner>
  {
    if texts == [] then []
    else
      EntryOf(texts[0], warning, policy) + ReadBanners(texts[1..], warning, policy)
  }

  lemma {:induction false} ReadBannersAppend(a: seq<StringsRead>, b: seq<StringsRead>, warning: bool, policy: FaultPolicy)
    ensures ReadBanners(a + b, warning, policy) == ReadBanners(a, warning, policy) + ReadBanners(b, warning, policy)
  {
    if a != [] {
      assert (a + b)[0] == a[0];
      assert (a + b)[1..] == a[1..] + b;
      ReadBannersAppend(a[1..], b, warning, policy);
      calc {
        ReadBanners(a + b, warning, policy);
        EntryOf(a[0], warning, policy) + ReadBanners(a[1..] + b, warning, policy);
        EntryOf(a[0], warning, policy) + (ReadBanners(a[1..], warning, policy) + ReadBanners(b, warning, policy));
      }
    } else {
      assert a + b == b;
    }
  }

  /** One more banner extends the entries by that banner's own entry. */
  lemma ReadBannersSnoc(a: seq<StringsRead>, t: StringsRead, warning: bool, policy: FaultPolicy)
    ensures ReadBanners(a + [t], warning, policy) == ReadBanners(a, warning, policy) + EntryOf(t, warning, policy)
  {
    ReadBannersAppend(a, [t], warning, policy);
    assert [t][1..] == [];
  }

  /** At most one entry per banner; an entry always has a message and a code. */
  lemma {:induction false} ReadBannersShape(texts: seq<StringsRead>, warning: bool, policy: FaultPolicy)
    ensures |ReadBanners(texts, warning, policy)| <= |texts|
    ensures forall i :: 0 <= i < |ReadBanners(texts, warning, policy)| ==>
              ReadBanners(texts, warning, policy)[i].msg != "" && ReadBanners(texts, warning, policy)[i].code != ""
  {
    if texts != [] {
      ReadBannersShape(texts[1..], warning, policy);
    }
  }

  /**
   * Entries of a warning container are warnings unless synthesised from a
   * parsing failure; entries of an error container are errors. Without the
   * synthetic entry (the legacy policy) every entry takes its container's
   * category, and every banner with two strings yields one.
   */
  lemma {:induction false} ReadBannersCategory(texts: seq<StringsRead>, warning: bool, policy: FaultPolicy)
    ensures forall i :: 0 <= i < |ReadBanners(texts, warning, policy)| ==>
              var b := ReadBanners(texts, warning, policy)[i];
              (b.cat == Warning ==> warning) &&
              (warning && b.cat == Error ==> policy == SyntheticEntry && b.code == ParsingErrorCode)
    ensures policy == LogOnly ==>
              forall i :: 0 <= i < |ReadBanners(texts, warning, policy)| ==>
                ReadBanners(texts, warning, policy)[i].cat == (if warning then Warning else Error)
    ensures (forall i :: 0 <= i < |texts| ==> |texts[i].items| >= 2) ==>
              |ReadBanners(texts, warning, policy)| == |texts|
  {
    if texts != [] {
      ReadBannersCategory(texts[1..], warning, policy);
      if forall i :: 0 <= i < |texts| ==> |texts[i].items| >= 2 {
        assert forall i :: 0 <= i < |texts[1..]| ==> texts[1..][i] == texts[i + 1];
      }
    }
  }

  const BannerInnerClass := "wui-message-banner-inner"
  const WarningClass := "wui-message-warning"
  const ErrorClass := "wui-message-error"

  /** The generator `d.strings` of a banner; reading a parsed tree never raises. */
  function LinesOf(d: Tag): StringsRead
  {
    StringsRead(Strings(d), None)
  }

  function LinesOfAll(ds: seq<Tag>): (r: seq<StringsRead>)
    ensures |r| == |ds|
    ensures forall i :: 0 <= i < |ds| ==> r[i] == LinesOf(ds[i])
  {
    if ds == [] then [] else [LinesOf(ds[0])] + LinesOfAll(ds[1..])
  }

  /** The banners inside the FIRST container only; later containers are never looked at. */
  function BannerEntries(containers: seq<Tag>, warning: bool, policy: FaultPolicy): seq<Banner>
  {
    if |containers| == 0 then []
    else ReadBanners(LinesOfAll(FindAllByClass(containers[0], "div", BannerInnerClass)), warning, policy)
  }

  /** `scrape_msg`: the loop over the inner banners of the first container. */
  method ScrapeMsg(containers: seq<Tag>, warning: bool, policy: FaultPolicy) returns (resp: seq<Banner>)
    ensures resp == BannerEntries(containers, warning, policy)
    ensures |containers| == 0 ==> resp == []
    ensures |containers| > 0 ==> |resp| <= |FindAllByClass(containers[0], "div", BannerInnerClass)|
  {
    resp := [];
    if |containers| > 0 {
      var dtag := FindAllByClass(containers[0], "div", BannerInnerClass);
      // `d.strings` of every inner banner
      var texts := LinesOfAll(dtag);
      resp := ReadInnerBanners(texts, warning, policy);
      ReadBannersShape(texts, warning, policy);
    }
  }

  /** The loop of `scrape_msg`, over the strings of each inner banner in order. */
  method ReadInnerBanners(texts: seq<StringsRead>, warning: bool, policy: FaultPolicy) returns (resp: seq<Banner>)
    ensures resp == ReadBanners(texts, warning, policy)
  {
    resp := [];
    var i := 0;
    while i < |texts|
      invariant 0 <= i <= |texts|
      invariant resp == ReadBanners(texts[..i], warning, policy)
    {
      var lines := texts[i];
      resp := resp + EntryOf(lines, warning, policy);
      assert texts[..i + 1] == texts[..i] + [lines];
      ReadBannersSnoc(texts[..i], lines, warning, policy);
      i := i + 1;
    }
    assert texts[..i] == texts;
  }

  /** `scrape_error`: the first warning container's entries, then the first error container's. */
  function ScrapeError(doc: Tag, policy: FaultPolicy): seq<Banner>
  {
    BannerEntries(FindAllByClass(doc, "div", WarningClass), true, policy)
      + BannerEntries(FindAllByClass(doc, "div", ErrorClass), false, policy)
  }

  /**
   * Every entry an error container contributes is an error; without the
   * synthetic entry, every entry a warning container contributes is a warning.
   */
  lemma ContainerEntries(cs: seq<Tag>, warning: bool, policy: FaultPolicy)
    requires !warning || policy == LogOnly
    ensures forall i :: 0 <= i < |BannerEntries(cs, warning, policy)| ==>
              BannerEntries(cs, warning, policy)[i].cat == (if warning then Warning else Error)
  {
    if |cs| > 0 {
      ReadBannersCategory(LinesOfAll(FindAllByClass(cs[0], "div", BannerInnerClass)), warning, policy);
    }
  }

  /** Warnings are listed before everything the error container contributes, which is all errors. */
  lemma ScrapeErrorOrder(doc: Tag, policy: FaultPolicy)
    ensures var w := BannerEntries(FindAllByClass(doc, "div", WarningClass), true, policy);
            var r := ScrapeError(doc, policy);
            |w| <= |r| && r[..|w|] == w &&
            forall i :: |w| <= i < |r| ==> r[i].cat == Error
  {
    var errors := FindAllByClass(doc, "div", ErrorClass);
    ContainerEntries(errors, false, policy);
    ErrorsAfter(BannerEntries(FindAllByClass(doc, "div", WarningClass), true, policy),
                BannerEntries(errors, false, policy));
  }

  /** Entries appended after `w` that are all errors leave `w` as the prefix and only errors after it. */
  lemma ErrorsAfter(w: seq<Banner>, e: seq<Banner>)
    requires forall i :: 0 <= i < |e| ==> e[i].cat == Error
    ensures (w + e)[..|w|] == w
    ensures forall i :: |w| <= i < |w + e| ==> (w + e)[i].cat == Error
  {
    assert (w + e)[..|w|] == w;
    assert forall i :: |w| <= i < |w + e| ==> (w + e)[i] == e[i - |w|];
  }

  /** The messages of the entries, in order (`[x['msg'] for x in emsg]`). */
  function Msgs(bs: seq<Banner>): (r: seq<string>)
    ensures |r| == |bs|
    ensures forall i :: 0 <= i < |bs| ==> r[i] == bs[i].msg
  {
    if bs == [] then [] else [bs[0].msg] + Msgs(bs[1..])
  }
}
