/**
 * Named presets: whole visibility configurations saved under a name in one
 * option, listed, loaded and deleted from the widget form.
 */
module Presets {
  import opened Values
  import opened Php

  const MaxPresets := 50
  const MaxNameLength := 100

  /** `get_presets`: the stored option as a PHP array; anything else reads as empty. */
  function PresetArray(option: Json): (r: seq<(string, Json)>)
    ensures |r| == |Elements(option)| && forall i :: 0 <= i < |r| ==> r[i].1 == Elements(option)[i]
  {
    match option
    case JObject(members) => members
    case JList(items) => Indexed(items)
    case _ => []
  }

  /** No name occurs twice, as in any PHP array. */
  predicate UniqueKeys(members: seq<(string, Json)>)
  {
    forall i, j :: 0 <= i < j < |members| ==> members[i].0 != members[j].0
  }

  function Keys(members: seq<(string, Json)>): (r: seq<string>)
    ensures |r| == |members| && forall i :: 0 <= i < |members| ==> r[i] == members[i].0
  {
    seq(|members|, i requires 0 <= i < |members| => members[i].0)
  }

  /** A list's decimal keys never repeat. */
  lemma IndexedUnique(items: seq<Json>)
    ensures UniqueKeys(Indexed(items))
  {
    forall i, j | 0 <= i < j < |items|
      ensures Indexed(items)[i].0 != Indexed(items)[j].0
    {
      DigitsValueOfNatToString(i);
      DigitsValueOfNatToString(j);
    }
  }

  /** `$presets[$name] = $value`: an existing name keeps its place, a new one goes last. */
  function SetKey(members: seq<(string, Json)>, name: string, value: Json): seq<(string, Json)>
  {
    if Lookup(members, name).Some? then ReplaceValue(members, name, value) else members + [(name, value)]
  }

  lemma SetKeyReads(members: seq<(string, Json)>, name: string, value: Json, k: string)
    ensures Lookup(SetKey(members, name, value), name) == Some(value)
    ensures k != name ==> Lookup(SetKey(members, name, value), k) == Lookup(members, k)
    ensures |SetKey(members, name, value)| == |members| + (if Lookup(members, name).Some? then 0 else 1)
    ensures Lookup(members, name).Some? ==> Keys(SetKey(members, name, value)) == Keys(members)
    ensures UniqueKeys(members) ==> UniqueKeys(SetKey(members, name, value))
  {
    LookupFound(members, name);
    if Lookup(members, name).Some? {
      LookupReplaceValue(members, name, value, name);
      LookupReplaceValue(members, name, value, k);
    } else {
      LookupAppend(members, [(name, value)], name);
      LookupAppend(members, [(name, value)], k);
    }
  }

  /** `unset($presets[$name])`. */
  function RemoveKey(members: seq<(string, Json)>, name: string): (r: seq<(string, Json)>)
    ensures |r| <= |members|
    ensures forall i :: 0 <= i < |r| ==> r[i].0 != name
    decreases |members|
  {
    if |members| == 0 then []
    else
      var last := members[|members| - 1];
      RemoveKey(members[..|members| - 1], name) + (if last.0 == name then [] else [last])
  }

  /** Removing a name leaves every other name's value. */
  lemma {:induction false} RemoveKeyReads(members: seq<(string, Json)>, name: string, k: string)
    requires k != name
    ensures Lookup(RemoveKey(members, name), k) == Lookup(members, k)
    decreases |members|
  {
    if |members| > 0 {
      var init := members[..|members| - 1];
      var last := members[|members| - 1];
      var rest := RemoveKey(init, name);
      RemoveKeyReads(init, name, k);
      if last.0 == name {
        assert rest + [] == rest;
      } else {
        assert RemoveKey(members, name) == rest + [last];
        LookupAppend(rest, [last], k);
        assert members == init + [last];
        LookupAppend(init, [last], k);
      }
    }
  }

  /** Removing a missing name changes nothing. */
  lemma {:induction false} RemoveKeyAbsent(members: seq<(string, Json)>, name: string)
    requires Lookup(members, name).None?
    ensures RemoveKey(members, name) == members
    decreases |members|
  {
    if |members| > 0 {
      var init := members[..|members| - 1];
      RemoveKeyAbsent(init, name);
      assert members == init + [members[|members| - 1]];
    }
  }

  /** With unique names, removing a present name drops exactly one preset and keeps names unique. */
  lemma {:induction false} RemoveKeyCount(members: seq<(string, Json)>, name: string)
    requires UniqueKeys(members)
    ensures UniqueKeys(RemoveKey(members, name))
    ensures Lookup(members, name).Some? ==> |RemoveKey(members, name)| == |members| - 1
    decreases |members|
  {
    if |members| > 0 {
      var init := members[..|members| - 1];
      var last := members[|members| - 1];
      var rest := RemoveKey(init, name);
      RemoveKeyCount(init, name);
      if last.0 == name {
        LookupFound(init, name);
        RemoveKeyAbsent(init, name);
        assert rest + [] == rest;
      } else {
        RemoveKeyFrom(init, name);
        forall i | 0 <= i < |rest|
          ensures rest[i].0 != last.0
        {
          var j :| 0 <= j < |init| && init[j] == rest[i];
        }
      }
    }
  }

  /** Removing only drops presets: what is left was stored before. */
  lemma {:induction false} RemoveKeyFrom(members: seq<(string, Json)>, name: string)
    ensures forall i :: 0 <= i < |RemoveKey(members, name)| ==> RemoveKey(members, name)[i] in members
    decreases |members|
  {
    if |members| > 0 {
      var init := members[..|members| - 1];
      RemoveKeyFrom(init, name);
      assert forall p :: p in init ==> p in members;
    }
  }

  /** The value saved under a name. */
  function PresetValue(data: Json, created: string): Json
  {
    JObject([("data", data), ("created", JStr(created))])
  }

  /** One element of the list the endpoints return. */
  datatype PresetInfo = PresetInfo(name: string, data: Json, created: Json)

  /** A stored preset as listed: `data` defaults to an empty array and `created` to ''. */
  function PresetEntry(name: string, preset: Json): PresetInfo
  {
    PresetInfo(name,
      if Isset(preset, "data") then Field(preset, "data") else JList([]),
      if Isset(preset, "created") then Field(preset, "created") else JStr(""))
  }

  /** `get_preset_list`: one entry per stored preset, in storage order. */
  function PresetList(option: Json): (r: seq<PresetInfo>)
    ensures |r| == |PresetArray(option)|
  {
    var presets := PresetArray(option);
    seq(|presets|, i requires 0 <= i < |presets| => PresetEntry(presets[i].0, presets[i].1))
  }

  /** What an endpoint sends back: `wp_send_json_success` or `wp_send_json_error`. */
  datatype Response = Success(message: Option<string>, presets: seq<PresetInfo>) | Failure(error: string)

  /** The posted name after `sanitize_text_field`; '' when it was not posted. */
  function PostedName(posted: Option<string>): string
  {
    if posted.Some? then SanitizeTextField(posted.value) else ""
  }

  /**
   * The posted preset data: data that was not posted reads as '', and a
   * string is replaced by what `json_decode` makes of it: null for '',
   * `decoded` for any other text (null when it is malformed).
   */
  function PostedData(posted: Option<Json>, decoded: Json): (r: Json)
    ensures posted.None? || posted.value == JStr("") ==> r == JNull
    ensures posted.Some? && !posted.value.JStr? ==> r == posted.value
  {
    var raw := if posted.Some? then posted.value else JStr("");
    if raw == JStr("") then JNull
    else if raw.JStr? then decoded else raw
  }

  /** `ajax_save_preset` after the nonce check: the new option and the response. */
  function SaveOutcome(option: Json, authorized: bool, posted: Option<string>, data: Json, now: string): (Json, Response)
  {
    var name := PostedName(posted);
    if !authorized then (option, Failure("Unauthorized"))
    else if name == "" || |name| > MaxNameLength then (option, Failure("Invalid preset name"))
    else if !IsArray(data) then (option, Failure("Invalid preset data"))
    else if |PresetArray(option)| >= MaxPresets then (option, Failure("Maximum 50 presets allowed"))
    else
      var saved := JObject(SetKey(PresetArray(option), name, PresetValue(data, now)));
      (saved, Success(Some("Preset saved"), PresetList(saved)))
  }

  /** `ajax_delete_preset` after the nonce check. */
  function DeleteOutcome(option: Json, authorized: bool, posted: Option<string>): (Json, Response)
  {
    var name := PostedName(posted);
    if !authorized then (option, Failure("Unauthorized"))
    else if name == "" then (option, Failure("Invalid preset name"))
    else
      var updated := if HasPreset(option, name) then JObject(RemoveKey(PresetArray(option), name)) else option;
      (updated, Success(Some("Preset deleted"), PresetList(updated)))
  }

  /** A refused save changes nothing; a save succeeds exactly for a good name, array data and room for it. */
  lemma SaveOutcomeRefusals(option: Json, authorized: bool, posted: Option<string>, data: Json, now: string)
    ensures SaveOutcome(option, authorized, posted, data, now).1.Failure? ==> SaveOutcome(option, authorized, posted, data, now).0 == option
    ensures SaveOutcome(option, authorized, posted, data, now).1.Success? <==>
      authorized && PostedName(posted) != "" && |PostedName(posted)| <= MaxNameLength && IsArray(data) &&
      |PresetArray(option)| < MaxPresets
  {
  }

  /**
   * A successful save stores the preset under its name, overwriting one of
   * the same name in place, and leaves every other preset as it was.
   */
  lemma SaveStores(option: Json, authorized: bool, posted: Option<string>, data: Json, now: string, other: string)
    requires SaveOutcome(option, authorized, posted, data, now).1.Success?
    ensures var saved := PresetArray(SaveOutcome(option, authorized, posted, data, now).0);
      Lookup(saved, PostedName(posted)) == Some(PresetValue(data, now))
    ensures var saved := PresetArray(SaveOutcome(option, authorized, posted, data, now).0);
      other != PostedName(posted) ==> Lookup(saved, other) == Lookup(PresetArray(option), other)
    ensures var saved := PresetArray(SaveOutcome(option, authorized, posted, data, now).0);
      Lookup(PresetArray(option), PostedName(posted)).Some? ==> Keys(saved) == Keys(PresetArray(option))
  {
    SetKeyReads(PresetArray(option), PostedName(posted), PresetValue(data, now), other);
  }

  /** The 50-preset cap: a store within it stays within it. */
  lemma SaveKeepsCap(option: Json, authorized: bool, posted: Option<string>, data: Json, now: string)
    requires |PresetArray(option)| <= MaxPresets
    ensures |PresetArray(SaveOutcome(option, authorized, posted, data, now).0)| <= MaxPresets
  {
    SetKeyReads(PresetArray(option), PostedName(posted), PresetValue(data, now), "");
  }

  /** Listing a stored preset value gives back its data and creation time. */
  lemma PresetEntryOfValue(name: string, data: Json, now: string)
    requires data != JNull
    ensures PresetEntry(name, PresetValue(data, now)) == PresetInfo(name, data, JStr(now))
  {
    var members := PresetValue(data, now).members;
    assert members[0].0[0] != members[1].0[0];
    LookupLast(members, 0);
    LookupLast(members, 1);
  }

  /** Every stored preset appears in the list under its name. */
  lemma ListedEntry(option: Json, name: string, preset: Json)
    requires (name, preset) in PresetArray(option)
    ensures PresetEntry(name, preset) in PresetList(option)
  {
    var presets := PresetArray(option);
    var i :| 0 <= i < |presets| && presets[i] == (name, preset);
    assert PresetList(option)[i] == PresetEntry(name, preset);
  }

  /** A saved preset is listed with its data and creation time. */
  lemma SavedPresetListed(option: Json, authorized: bool, posted: Option<string>, data: Json, now: string)
    requires SaveOutcome(option, authorized, posted, data, now).1.Success?
    ensures PresetInfo(PostedName(posted), data, JStr(now)) in SaveOutcome(option, authorized, posted, data, now).1.presets
  {
    var name := PostedName(posted);
    var saved := SaveOutcome(option, authorized, posted, data, now).0;
    SetKeyReads(PresetArray(option), name, PresetValue(data, now), name);
    LookupFound(PresetArray(saved), name);
    assert (name, PresetValue(data, now)) in PresetArray(saved);
    ListedEntry(saved, name, PresetValue(data, now));
    PresetEntryOfValue(name, data, now);
  }

  /**
   * Deleting removes exactly the named preset; a missing name (or one
   * stored as null) leaves the option as it was, and an empty name is refused.
   */
  lemma DeleteRemoves(option: Json, authorized: bool, posted: Option<string>, other: string)
    ensures !authorized || PostedName(posted) == "" <==> DeleteOutcome(option, authorized, posted).1.Failure?
    ensures !HasPreset(option, PostedName(posted)) ==> DeleteOutcome(option, authorized, posted).0 == option
    ensures var after := PresetArray(DeleteOutcome(option, authorized, posted).0);
      authorized && PostedName(posted) != "" && HasPreset(option, PostedName(posted)) ==>
        Lookup(after, PostedName(posted)).None? &&
        (other != PostedName(posted) ==> Lookup(after, other) == Lookup(PresetArray(option), other))
  {
    LookupFound(RemoveKey(PresetArray(option), PostedName(posted)), PostedName(posted));
    if other != PostedName(posted) {
      RemoveKeyReads(PresetArray(option), PostedName(posted), other);
    }
  }

  /** `isset($presets[$name])`. */
  predicate HasPreset(option: Json, name: string)
  {
    Lookup(PresetArray(option), name).Some? && Lookup(PresetArray(option), name).value != JNull
  }

  /** Deleting never grows the store, and keeps names unique. */
  lemma DeleteKeepsCap(option: Json, authorized: bool, posted: Option<string>)
    requires UniqueKeys(PresetArray(option))
    ensures |PresetArray(DeleteOutcome(option, authorized, posted).0)| <= |PresetArray(option)|
    ensures UniqueKeys(PresetArray(DeleteOutcome(option, authorized, posted).0))
  {
    RemoveKeyCount(PresetArray(option), PostedName(posted));
  }

  /** The `wvd_presets` option and the three endpoints that use it. */
  class PresetStore {
    var option: Json

    /** Names are unique, as in any PHP array. */
    ghost predicate Valid()
      reads this
    {
      UniqueKeys(PresetArray(option))
    }

    constructor(option: Json)
      requires !option.JObject? || UniqueKeys(option.members)
      ensures this.option == option && Valid()
    {
      this.option := option;
      new;
      if option.JList? {
        IndexedUnique(option.items);
      }
    }

    /** `get_preset_list`. */
    method GetPresetList() returns (list: seq<PresetInfo>)
      ensures list == PresetList(option)
    {
      var presets := PresetArray(option);
      list := [];
      for i := 0 to |presets|
        invariant |list| == i
        invariant forall j :: 0 <= j < i ==> list[j] == PresetEntry(presets[j].0, presets[j].1)
      {
        var name := presets[i].0;
        var preset := presets[i].1;
        list := list + [PresetInfo(name,
          if Isset(preset, "data") then Field(preset, "data") else JList([]),
          if Isset(preset, "created") then Field(preset, "created") else JStr(""))];
      }
    }

    /** `ajax_load_presets`: the same list, built by the same loop. */
    method LoadPresets(authorized: bool) returns (response: Response)
      ensures response == if authorized then Success(None, PresetList(option)) else Failure("Unauthorized")
    {
      if !authorized {
        return Failure("Unauthorized");
      }
      var list := GetPresetList();
      return Success(None, list);
    }

    /** `ajax_save_preset`, once the nonce has been checked. */
    method SavePreset(authorized: bool, posted: Option<string>, postedData: Option<Json>, decoded: Json, now: string)
      returns (response: Response)
      requires Valid()
      modifies this
      ensures Valid()
      ensures (option, response) == SaveOutcome(old(option), authorized, posted, PostedData(postedData, decoded), now)
    {
      if !authorized {
        return Failure("Unauthorized");
      }
      var name := if posted.Some? then SanitizeTextField(posted.value) else "";
      if name == "" || |name| > MaxNameLength {
        return Failure("Invalid preset name");
      }
      var data := if postedData.Some? then postedData.value else JStr("");
      if data.JStr? {
        // `json_decode('')` is null; other text decodes to `decoded`.
        data := if data.s == "" then JNull else decoded;
      }
      if !IsArray(data) {
        return Failure("Invalid preset data");
      }
      var presets := PresetArray(option);
      if |presets| >= MaxPresets {
        return Failure("Maximum 50 presets allowed");
      }
      presets := SetKey(presets, name, PresetValue(data, now));
      SetKeyReads(PresetArray(option), name, PresetValue(data, now), name);
      option := JObject(presets);
      var list := GetPresetList();
      return Success(Some("Preset saved"), list);
    }

    /** `ajax_delete_preset`, once the nonce has been checked. */
    method DeletePreset(authorized: bool, posted: Option<string>) returns (response: Response)
      requires Valid()
      modifies this
      ensures Valid()
      ensures (option, response) == DeleteOutcome(old(option), authorized, posted)
    {
      if !authorized {
        return Failure("Unauthorized");
      }
      var name := if posted.Some? then SanitizeTextField(posted.value) else "";
      if name == "" {
        return Failure("Invalid preset name");
      }
      var presets := PresetArray(option);
      if HasPreset(option, name) {
        RemoveKeyCount(presets, name);
        option := JObject(RemoveKey(presets, name));
      }
      var list := GetPresetList();
      return Success(Some("Preset deleted"), list);
    }
  }
}
