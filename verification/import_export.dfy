/**
 * Exporting the visibility settings of every placed widget to a document,
 * and importing such a document back into the stored widget options.
 */
module ImportExport {
  import opened Values
  import opened Php

  // ---------------------------------------------------------------- widget ids

  /** The position of the last '-' in `s`. */
  function LastDash(s: string): (r: Option<nat>)
    ensures r.Some? ==> r.value < |s| && s[r.value] == '-' && forall k :: r.value < k < |s| ==> s[k] != '-'
    ensures r.None? ==> forall k :: 0 <= k < |s| ==> s[k] != '-'
    decreases |s|
  {
    if |s| == 0 then None
    else if s[|s| - 1] == '-' then Some(|s| - 1)
    else LastDash(s[..|s| - 1])
  }

  /** The text a pattern ending in `$` must match: the whole id, less one final line break. */
  function Body(id: string): string
  {
    if |id| > 0 && id[|id| - 1] == '\n' then id[..|id| - 1] else id
  }

  /**
   * `preg_match('/^(.+)-(\d+)$/', $id)`: the id base and the digits. The
   * greedy `.+` makes the split the last '-', `.` matches no line break, and
   * `$` also matches before a final line break.
   */
  function ParseWidgetId(id: string): Option<(string, string)>
  {
    var body := Body(id);
    match LastDash(body)
    case None => None
    case Some(j) =>
      var base := body[..j];
      var digits := body[j + 1..];
      if |base| > 0 && '\n' !in base && |digits| > 0 && AllDigits(digits) then Some((base, digits)) else None
  }

  /** A string the pattern matches, with its two captures. */
  predicate MatchesAs(id: string, base: string, digits: string)
  {
    |base| > 0 && '\n' !in base && |digits| > 0 && AllDigits(digits) &&
    (id == base + "-" + digits || id == base + "-" + digits + "\n")
  }

  /** What the parser returns is a match of the pattern. */
  lemma ParseWidgetIdSound(id: string)
    requires ParseWidgetId(id).Some?
    ensures MatchesAs(id, ParseWidgetId(id).value.0, ParseWidgetId(id).value.1)
  {
    var body := Body(id);
    var j := LastDash(body).value;
    assert body == body[..j] + "-" + body[j + 1..];
  }

  /** Every match of the pattern is found, with the same captures. */
  lemma ParseWidgetIdComplete(id: string, base: string, digits: string)
    requires MatchesAs(id, base, digits)
    ensures ParseWidgetId(id) == Some((base, digits))
  {
    var body := base + "-" + digits;
    MatchBody(id, base, digits);
    MatchLastDash(base, digits);
    assert body[..|base|] == base && body[|base| + 1..] == digits;
  }

  lemma MatchBody(id: string, base: string, digits: string)
    requires MatchesAs(id, base, digits)
    ensures Body(id) == base + "-" + digits
  {
    var body := base + "-" + digits;
    if id != body {
      assert id[..|id| - 1] == body;
    } else {
      assert id[|id| - 1] == digits[|digits| - 1];
    }
  }

  lemma MatchLastDash(base: string, digits: string)
    requires AllDigits(digits)
    ensures LastDash(base + "-" + digits) == Some(|base|)
  {
    LastDashBeforeDigits(base + "-", digits);
  }

  /** Digits after a '-' leave it the last one. */
  lemma {:induction false} LastDashBeforeDigits(dash: string, digits: string)
    requires |dash| > 0 && dash[|dash| - 1] == '-' && AllDigits(digits)
    ensures LastDash(dash + digits) == Some(|dash| - 1)
    decreases |digits|
  {
    var s := dash + digits;
    if |digits| == 0 {
      assert s == dash;
    } else {
      assert s[..|s| - 1] == dash + digits[..|digits| - 1];
      assert s[|s| - 1] == digits[|digits| - 1];
      assert IsDigit(digits[|digits| - 1]);
      LastDashBeforeDigits(dash, digits[..|digits| - 1]);
    }
  }

  /** `get_widget_id_base`: the id base, or false when the pattern does not match (only strings can). */
  function WidgetIdBase(widgetId: Json): (r: Option<string>)
    ensures r.Some? ==> |r.value| > 0 && '\n' !in r.value
  {
    if widgetId.JStr? && ParseWidgetId(widgetId.s).Some? then Some(ParseWidgetId(widgetId.s).value.0) else None
  }

  /** `get_widget_number`: `(int)` of the digits, or false. */
  function WidgetNumber(widgetId: Json): Option<nat>
  {
    if widgetId.JStr? && ParseWidgetId(widgetId.s).Some? then
      var digits := ParseWidgetId(widgetId.s).value.1;
      Some(DigitsValue(digits))
    else None
  }

  /** Both parsers succeed or fail together, and a base and number written out read back. */
  lemma WidgetIdRoundTrip(base: string, number: nat)
    requires |base| > 0 && '\n' !in base
    ensures WidgetIdBase(JStr(base + "-" + NatToString(number))) == Some(base)
    ensures WidgetNumber(JStr(base + "-" + NatToString(number))) == Some(number)
  {
    ParseWidgetIdComplete(base + "-" + NatToString(number), base, NatToString(number));
    DigitsValueOfNatToString(number);
  }

  // ---------------------------------------------------------------- the stored widget options

  /** `get_option($name)`: false when the option does not exist. */
  function GetOption(options: map<string, Json>, name: string): Json
  {
    if name in options then options[name] else JBool(false)
  }

  /** `$option[$number]`: a numbered widget's settings; an integer key and its decimal string are one key. */
  function Entry(option: Json, number: nat): Option<Json>
  {
    match option
    case JObject(members) => Lookup(members, NatToString(number))
    case JList(items) => if number < |items| then Some(items[number]) else None
    case _ => None
  }

  /** `isset($option[$number])`. */
  predicate HasEntry(option: Json, number: nat)
  {
    Entry(option, number).Some? && Entry(option, number).value != JNull
  }

  /** `$v[$key] = $x` on a widget's settings. */
  function SetMember(v: Json, key: string, x: Json): (r: Json)
    ensures r.JObject?
  {
    match v
    case JObject(members) =>
      if Lookup(members, key).Some? then JObject(ReplaceValue(members, key, x)) else JObject(members + [(key, x)])
    case JList(items) => JObject(Indexed(items) + [(key, x)])
    case _ => JObject([(key, x)])
  }

  /** The member set reads back, and the other members of a keyed array are untouched. */
  lemma SetMemberReads(v: Json, key: string, x: Json, k: string)
    ensures Get(SetMember(v, key, x), key) == Some(x)
    ensures v.JObject? && k != key ==> Get(SetMember(v, key, x), k) == Get(v, k)
  {
    match v
    case JObject(members) =>
      if Lookup(members, key).Some? {
        LookupReplaceValue(members, key, x, key);
        LookupReplaceValue(members, key, x, k);
      } else {
        LookupAppend(members, [(key, x)], key);
        LookupAppend(members, [(key, x)], k);
      }
    case JList(items) =>
      LookupAppend(Indexed(items), [(key, x)], key);
    case _ =>
  }

  /** `$option[$number] = $x` for a number that is set. */
  function SetEntry(option: Json, number: nat, x: Json): Json
  {
    match option
    case JObject(members) => JObject(ReplaceValue(members, NatToString(number), x))
    case JList(items) => if number < |items| then JList(items[number := x]) else option
    case _ => option
  }

  /** Only the chosen widget's settings change. */
  lemma SetEntryReads(option: Json, number: nat, x: Json, other: nat)
    requires Entry(option, number).Some?
    ensures Entry(SetEntry(option, number, x), number) == Some(x)
    ensures other != number ==> Entry(SetEntry(option, number, x), other) == Entry(option, other)
  {
    if option.JObject? {
      LookupReplaceValue(option.members, NatToString(number), x, NatToString(number));
      LookupReplaceValue(option.members, NatToString(number), x, NatToString(other));
      DigitsValueOfNatToString(number);
      DigitsValueOfNatToString(other);
    }
  }

  // ---------------------------------------------------------------- import

  /** `$widget_data['visibility']`, or an empty array when it is not set. */
  function VisibilityOf(data: Json): Json
  {
    if Isset(data, "visibility") then Field(data, "visibility") else JList([])
  }

  /** The option an entry of an import document targets. */
  function OptionName(data: Json): string
  {
    "widget_" + SanitizeKeyValue(Field(data, "id_base"))
  }

  /** The widget number an entry targets. */
  function NumberOf(data: Json): nat
  {
    AbsInt(Field(data, "number"))
  }

  /** One iteration of `apply_visibility_data`: the updated options, or None when the entry is skipped. */
  function ApplyEntry(options: map<string, Json>, data: Json): (r: Option<map<string, Json>>)
    ensures r.Some? ==> r.value.Keys == options.Keys
  {
    if !IsArray(data) || IsEmpty(Field(data, "id_base")) || !Isset(data, "number") then None
    else
      var visibility := VisibilityOf(data);
      if !IsArray(visibility) || IsEmpty(Field(visibility, "rules")) then None
      else
        var name := OptionName(data);
        var number := NumberOf(data);
        var option := GetOption(options, name);
        if !IsArray(option) || !HasEntry(option, number) then None
        else Some(options[name := SetEntry(option, number, SetMember(Entry(option, number).value, "wvd_visibility", visibility))])
  }

  /**
   * An applied entry stores its visibility, unsanitized, in the targeted
   * widget's settings and changes nothing else.
   */
  lemma ApplyEntryEffect(options: map<string, Json>, data: Json, otherNumber: nat, key: string)
    requires ApplyEntry(options, data).Some?
    ensures OptionName(data) in options
    ensures var updated := ApplyEntry(options, data).value;
      forall name :: name in options && name != OptionName(data) ==> updated[name] == options[name]
    ensures var option := ApplyEntry(options, data).value[OptionName(data)];
      Entry(option, NumberOf(data)).Some? &&
      Get(Entry(option, NumberOf(data)).value, "wvd_visibility") == Some(VisibilityOf(data))
    ensures var option := ApplyEntry(options, data).value[OptionName(data)];
      otherNumber != NumberOf(data) ==> Entry(option, otherNumber) == Entry(options[OptionName(data)], otherNumber)
    ensures var before := Entry(options[OptionName(data)], NumberOf(data)).value;
      var after := Entry(ApplyEntry(options, data).value[OptionName(data)], NumberOf(data)).value;
      before.JObject? && key != "wvd_visibility" ==> Get(after, key) == Get(before, key)
  {
    var option := options[OptionName(data)];
    var entry := Entry(option, NumberOf(data)).value;
    var updated := SetMember(entry, "wvd_visibility", VisibilityOf(data));
    SetEntryReads(option, NumberOf(data), updated, otherNumber);
    SetMemberReads(entry, "wvd_visibility", VisibilityOf(data), key);
  }

  /** The options and the count after the loop has visited `entries`. */
  function ApplyAll(options: map<string, Json>, entries: seq<Json>): (r: (map<string, Json>, nat))
    ensures r.1 <= |entries|
    ensures r.0.Keys == options.Keys
    decreases |entries|
  {
    if |entries| == 0 then (options, 0)
    else ApplyNext(ApplyAll(options, entries[..|entries| - 1]), entries[|entries| - 1])
  }

  /** One more entry on the options and count so far: applied and counted, or skipped. */
  function ApplyNext(prev: (map<string, Json>, nat), data: Json): (r: (map<string, Json>, nat))
    ensures r.1 <= prev.1 + 1 && r.0.Keys == prev.0.Keys
  {
    match ApplyEntry(prev.0, data)
    case None => prev
    case Some(next) => (next, prev.1 + 1)
  }

  /** One more entry: applied to what the earlier ones left, counted when it applies. */
  lemma ApplyAllStep(options: map<string, Json>, entries: seq<Json>, i: nat)
    requires i < |entries|
    ensures ApplyAll(options, entries[..i + 1]) == ApplyNext(ApplyAll(options, entries[..i]), entries[i])
  {
    var longer := entries[..i + 1];
    assert longer[..|longer| - 1] == entries[..i];
    assert longer[|longer| - 1] == entries[i];
  }

  /** Entries that are all skipped leave the options as they were. */
  lemma {:induction false} ApplySkipped(options: map<string, Json>, entries: seq<Json>)
    requires forall i :: 0 <= i < |entries| ==> !IsArray(entries[i])
    ensures ApplyAll(options, entries) == (options, 0)
    decreases |entries|
  {
    if |entries| > 0 {
      ApplySkipped(options, entries[..|entries| - 1]);
    }
  }

  /** `handle_import` gives up on a file over 512000 bytes or a document without a `widgets` array. */
  predicate ImportRejected(size: int, document: Json)
  {
    size > 512000 || !IsArray(document) || !Isset(document, "widgets") || !IsArray(Field(document, "widgets"))
  }

  // ---------------------------------------------------------------- export

  /** One element of the exported `widgets` list. */
  datatype ExportEntry = ExportEntry(widgetId: string, idBase: string, number: nat, sidebar: Json, visibility: Json)

  /** The array `collect_visibility_data` writes for an entry. */
  function EntryJson(e: ExportEntry): Json
  {
    JObject([("widget_id", JStr(e.widgetId)), ("id_base", JStr(e.idBase)), ("number", JInt(e.number)),
             ("sidebar", e.sidebar), ("visibility", e.visibility)])
  }

  function EntriesJson(entries: seq<ExportEntry>): (r: seq<Json>)
    ensures |r| == |entries| && forall i :: 0 <= i < |entries| ==> r[i] == EntryJson(entries[i])
  {
    seq(|entries|, i requires 0 <= i < |entries| => EntryJson(entries[i]))
  }

  /** The export of one placed widget: its stored visibility when that has rules. */
  function WidgetExport(options: map<string, Json>, sidebar: Json, widgetId: Json): (r: seq<ExportEntry>)
    ensures |r| <= 1
  {
    var idBase := WidgetIdBase(widgetId);
    var number := WidgetNumber(widgetId);
    if idBase.None? || idBase.value == "0" || number.None? then []
    else
      var option := GetOption(options, "widget_" + idBase.value);
      if !IsArray(option) || Entry(option, number.value).None? || !Isset(Entry(option, number.value).value, "wvd_visibility") then []
      else
        var visibility := Field(Entry(option, number.value).value, "wvd_visibility");
        if IsEmpty(Field(visibility, "rules")) then []
        else [ExportEntry(widgetId.s, idBase.value, number.value, sidebar, visibility)]
  }

  function WidgetStep(options: map<string, Json>, sidebar: Json): Json -> seq<ExportEntry>
  {
    w => WidgetExport(options, sidebar, w)
  }

  /** The (sidebar id, widget ids) pairs `foreach` visits; a list has integer keys. */
  function SidebarPairs(sidebars: Json): (r: seq<(Json, Json)>)
    ensures |r| == |Elements(sidebars)|
  {
    match sidebars
    case JObject(members) => seq(|members|, i requires 0 <= i < |members| => (JStr(members[i].0), members[i].1))
    case JList(items) => seq(|items|, i requires 0 <= i < |items| => (JInt(i), items[i]))
    case _ => []
  }

  /** The exports of one sidebar: none for the inactive widgets or a non-array. */
  function SidebarExport(options: map<string, Json>, pair: (Json, Json)): seq<ExportEntry>
  {
    if !IsArray(pair.1) || pair.0 == JStr("wp_inactive_widgets") then []
    else Collect(WidgetStep(options, pair.0), Elements(pair.1))
  }

  function SidebarStep(options: map<string, Json>): ((Json, Json)) -> seq<ExportEntry>
  {
    pair => SidebarExport(options, pair)
  }

  /** The `widgets` list of the export document. */
  function Exported(options: map<string, Json>, sidebars: Json): seq<ExportEntry>
  {
    if !IsArray(sidebars) then [] else Collect(SidebarStep(options), SidebarPairs(sidebars))
  }

  /** An exported widget: placed outside the inactive area, stored with rules, under an id that parses to it. */
  predicate ValidExport(options: map<string, Json>, e: ExportEntry)
  {
    e.sidebar != JStr("wp_inactive_widgets") &&
    WidgetIdBase(JStr(e.widgetId)) == Some(e.idBase) && WidgetNumber(JStr(e.widgetId)) == Some(e.number) &&
    e.idBase != "0" &&
    var option := GetOption(options, "widget_" + e.idBase);
    IsArray(option) && Entry(option, e.number).Some? &&
    Get(Entry(option, e.number).value, "wvd_visibility") == Some(e.visibility) &&
    !IsEmpty(Field(e.visibility, "rules"))
  }

  lemma WidgetExportValid(options: map<string, Json>, sidebar: Json, widgetId: Json)
    requires sidebar != JStr("wp_inactive_widgets")
    ensures forall e :: e in WidgetExport(options, sidebar, widgetId) ==> ValidExport(options, e)
  {
  }

  /** Every exported entry describes a stored visibility with rules, as the export loop checks. */
  lemma ExportedValid(options: map<string, Json>, sidebars: Json)
    ensures forall e :: e in Exported(options, sidebars) ==> ValidExport(options, e)
  {
    if IsArray(sidebars) {
      var pairs := SidebarPairs(sidebars);
      forall pair, e | pair in pairs && e in SidebarStep(options)(pair)
        ensures ValidExport(options, e)
      {
        if IsArray(pair.1) && pair.0 != JStr("wp_inactive_widgets") {
          var ws := Elements(pair.1);
          forall w, e' | w in ws && e' in WidgetStep(options, pair.0)(w)
            ensures ValidExport(options, e')
          {
            WidgetExportValid(options, pair.0, w);
          }
          CollectAll(WidgetStep(options, pair.0), ws, e' => ValidExport(options, e'));
        }
      }
      CollectAll(SidebarStep(options), pairs, e => ValidExport(options, e));
    }
  }

  /** The export document: metadata, then the widgets. */
  function ExportDocument(version: string, exported: string, widgets: seq<ExportEntry>): Json
  {
    JObject([("plugin", JStr("widget-visibility-descendants")), ("version", JStr(version)),
             ("exported", JStr(exported)), ("widgets", JList(EntriesJson(widgets)))])
  }

  /** An export document of acceptable size passes the import guards and hands over its entries. */
  lemma ImportOfExportDocument(size: int, version: string, exported: string, widgets: seq<ExportEntry>)
    requires size <= 512000
    ensures !ImportRejected(size, ExportDocument(version, exported, widgets))
    ensures Elements(Field(ExportDocument(version, exported, widgets), "widgets")) == EntriesJson(widgets)
  {
    LookupLast(ExportDocument(version, exported, widgets).members, 3);
  }

  /** The members of an exported entry as the import reads them. */
  lemma EntryJsonFields(e: ExportEntry)
    ensures Field(EntryJson(e), "id_base") == JStr(e.idBase)
    ensures Field(EntryJson(e), "number") == JInt(e.number)
    ensures Get(EntryJson(e), "visibility") == Some(e.visibility)
  {
    var m := EntryJson(e).members;
    LookupLast(m, 1);
    LookupLast(m, 2);
    LookupLast(m, 4);
  }

  /**
   * Importing an exported widget whose id base is already a key targets the
   * same widget and stores the visibility it was exported with.
   */
  lemma ImportOfExportedEntry(options: map<string, Json>, e: ExportEntry)
    requires ValidExport(options, e) && IsKey(e.idBase)
    ensures ApplyEntry(options, EntryJson(e)).Some?
    ensures OptionName(EntryJson(e)) == "widget_" + e.idBase && NumberOf(EntryJson(e)) == e.number
    ensures VisibilityOf(EntryJson(e)) == e.visibility
  {
    EntryJsonFields(e);
    SanitizeKeyOfKey(e.idBase);
    assert Field(e.visibility, "rules") != JNull;
  }

  // ---------------------------------------------------------------- the option store

  /** The widget options (`widget_<id_base>` rows) the import writes and the export reads. */
  class WidgetStore {
    var options: map<string, Json>

    constructor(options: map<string, Json>)
      ensures this.options == options
    {
      this.options := options;
    }

    /** `apply_visibility_data`: applies every acceptable entry and counts them. */
    method ApplyVisibilityData(widgets: Json) returns (count: nat)
      modifies this
      ensures (options, count) == ApplyAll(old(options), Elements(widgets))
      ensures count <= |Elements(widgets)| && options.Keys == old(options).Keys
    {
      count := 0;
      var entries := Elements(widgets);
      ghost var start := options;
      for i := 0 to |entries|
        invariant (options, count) == ApplyAll(start, entries[..i])
      {
        ApplyAllStep(start, entries, i);
        var applied := ApplyEntryTo(entries[i]);
        if applied {
          count := count + 1;
        }
      }
      assert entries[..|entries|] == entries;
    }

    /** One pass of the `foreach` of `apply_visibility_data`: whether the entry was applied. */
    method ApplyEntryTo(data: Json) returns (applied: bool)
      modifies this
      ensures applied <==> ApplyEntry(old(options), data).Some?
      ensures options == if applied then ApplyEntry(old(options), data).value else old(options)
    {
      if !IsArray(data) || IsEmpty(Field(data, "id_base")) || !Isset(data, "number") {
        return false;
      }
      var idBase := SanitizeKeyValue(Field(data, "id_base"));
      var number := AbsInt(Field(data, "number"));
      var visibility := if Isset(data, "visibility") then Field(data, "visibility") else JList([]);
      if !IsArray(visibility) || IsEmpty(Field(visibility, "rules")) {
        return false;
      }
      var option := GetOption(options, "widget_" + idBase);
      if !IsArray(option) || !HasEntry(option, number) {
        return false;
      }
      var entry := SetMember(Entry(option, number).value, "wvd_visibility", visibility);
      options := options["widget_" + idBase := SetEntry(option, number, entry)];
      return true;
    }

    /** `handle_import` after the request checks: the imported count, or None when the upload is refused. */
    method HandleImport(size: int, document: Json) returns (count: Option<nat>)
      modifies this
      ensures count.None? <==> ImportRejected(size, document)
      ensures count.None? ==> options == old(options)
      ensures count.Some? ==>
        (options, count.value) == ApplyAll(old(options), Elements(Field(document, "widgets")))
    {
      if size > 512000 {
        return None;
      }
      if !IsArray(document) || !Isset(document, "widgets") || !IsArray(Field(document, "widgets")) {
        return None;
      }
      var n := ApplyVisibilityData(Field(document, "widgets"));
      return Some(n);
    }

    /** `collect_visibility_data`: the `widgets` list of the export document. */
    method CollectVisibilityData(sidebars: Json) returns (widgets: seq<ExportEntry>)
      ensures widgets == Exported(options, sidebars)
    {
      widgets := [];
      if !IsArray(sidebars) {
        return;
      }
      var pairs := SidebarPairs(sidebars);
      for i := 0 to |pairs|
        invariant widgets == Collect(SidebarStep(options), pairs[..i])
      {
        CollectStep(SidebarStep(options), pairs, i);
        var found := CollectSidebar(pairs[i].0, pairs[i].1);
        widgets := widgets + found;
      }
      assert pairs[..|pairs|] == pairs;
    }

    /** One pass of the outer loop of `collect_visibility_data`: the exports of one sidebar. */
    method CollectSidebar(sidebarId: Json, ids: Json) returns (found: seq<ExportEntry>)
      ensures found == SidebarExport(options, (sidebarId, ids))
    {
      found := [];
      if !IsArray(ids) || sidebarId == JStr("wp_inactive_widgets") {
        return;
      }
      var items := Elements(ids);
      for k := 0 to |items|
        invariant found == Collect(WidgetStep(options, sidebarId), items[..k])
      {
        CollectStep(WidgetStep(options, sidebarId), items, k);
        var widgetId := items[k];
        var idBase := WidgetIdBase(widgetId);
        var number := WidgetNumber(widgetId);
        if idBase.None? || idBase.value == "0" || number.None? {
          continue;
        }
        var option := GetOption(options, "widget_" + idBase.value);
        if !IsArray(option) || Entry(option, number.value).None? || !Isset(Entry(option, number.value).value, "wvd_visibility") {
          continue;
        }
        var visibility := Field(Entry(option, number.value).value, "wvd_visibility");
        if !IsEmpty(Field(visibility, "rules")) {
          found := found + [ExportEntry(widgetId.s, idBase.value, number.value, sidebarId, visibility)];
        }
      }
      assert items[..|items|] == items;
    }
  }
}
