/**
 * The widget form's script: it reads the hidden JSON field back into a
 * normal form (`getVisibilityData`, `normalizeRule`, `getDefaultRule`),
 * couples the two hierarchy checkboxes, and escapes text for HTML.
 */
module AdminScript {
  import opened Values
  import opened Js
  import opened Rules

  /**
   * A rule object as the script builds it. The four common properties are
   * always present; the optional ones exist only for the types that carry
   * them.
   */
  datatype ScriptRule = ScriptRule(
    ruleType: string,
    value: string,
    includeChildren: bool,
    includeDescendants: bool,
    taxonomy: Option<string>,
    values: Option<seq<string>>,
    startDate: Option<string>,
    endDate: Option<string>,
    paramName: Option<string>,
    paramValue: Option<string>)

  /** The form's whole state: `{action, match_all, rules}`. */
  datatype ScriptData = ScriptData(action: Action, matchAll: bool, rules: seq<ScriptRule>)

  /** What `getVisibilityData` falls back to. */
  const Fallback := ScriptData(Show, false, [])

  /** The extra properties are exactly those of the rule's type. */
  predicate HasOwnExtras(r: ScriptRule)
  {
    (r.taxonomy.Some? <==> r.ruleType == "taxonomy") &&
    (r.values.Some? <==> r.ruleType == "user_role") &&
    (r.startDate.Some? <==> r.ruleType == "schedule") &&
    (r.endDate.Some? <==> r.ruleType == "schedule") &&
    (r.paramName.Some? <==> r.ruleType == "url_param") &&
    (r.paramValue.Some? <==> r.ruleType == "url_param")
  }

  /** The normal form the script keeps every rule in. */
  predicate Normal(r: ScriptRule)
  {
    r.ruleType != "" && HasOwnExtras(r) &&
    (r.includeDescendants ==> r.includeChildren) &&
    (!SupportsHierarchy(r.ruleType) ==> !r.includeChildren && !r.includeDescendants) &&
    (r.ruleType == "user_role" ==> r.value == "")
  }

  /** `getDefaultRule(type)`, stated property by property. */
  function DefaultRule(t: string): (r: ScriptRule)
    ensures r.ruleType == (if t == "" then "page" else t)
    ensures r.value == "" && !r.includeChildren && !r.includeDescendants
    ensures Normal(r)
  {
    var rt := if t == "" then "page" else t;
    ScriptRule(rt, "", false, false,
      if rt == "taxonomy" then Some("") else None,
      if rt == "user_role" then Some([]) else None,
      if rt == "schedule" then Some("") else None,
      if rt == "schedule" then Some("") else None,
      if rt == "url_param" then Some("") else None,
      if rt == "url_param" then Some("") else None)
  }

  /** `getDefaultRule`: the default type, then one property group per type. */
  method GetDefaultRule(t: string) returns (rule: ScriptRule)
    ensures rule == DefaultRule(t)
  {
    var defaultType := if t != "" then t else "page";
    rule := ScriptRule(defaultType, "", false, false, None, None, None, None, None, None);
    if defaultType == "taxonomy" {
      rule := rule.(taxonomy := Some(""));
    }
    if defaultType == "user_role" {
      rule := rule.(values := Some([]));
    }
    if defaultType == "schedule" {
      rule := rule.(startDate := Some(""), endDate := Some(""));
    }
    if defaultType == "url_param" {
      rule := rule.(paramName := Some(""), paramValue := Some(""));
    }
  }

  /** `rule.key`, with a missing property read as null (the script treats undefined and null alike here). */
  function Prop(rule: Json, key: string): Json
  {
    if Get(rule, key).Some? then Get(rule, key).value else JNull
  }

  /** `typeof rule.key === 'string' ? rule.key : ''`. */
  function StringProp(rule: Json, key: string): string
  {
    if Prop(rule, key).JStr? then Prop(rule, key).s else ""
  }

  /** The type `normalizeRule` uses: the `type` property when it is a non-empty string, else 'page'. */
  function TypeOf(rule: Json): (t: string)
    ensures t != ""
  {
    if Prop(rule, "type").JStr? && Prop(rule, "type").s != "" then Prop(rule, "type").s else "page"
  }

  /** The role list a user_role rule ends with: the stringified `values` array, else a non-empty `value`, else nothing. */
  function RoleValues(rule: Json): seq<string>
  {
    match Prop(rule, "values")
    case JList(items) => seq(|items|, i requires 0 <= i < |items| => Js.ToString(items[i]))
    case _ =>
      if Prop(rule, "value").JStr? && Prop(rule, "value").s != "" then [Prop(rule, "value").s] else []
  }

  /**
   * The rule `normalizeRule` returns, property by property; nothing for a
   * value that is not an object.
   */
  function NormalizedRule(rule: Json): (r: Option<ScriptRule>)
    ensures r.None? <==> !IsObject(rule)
    ensures r.Some? ==> Normal(r.value) && r.value.ruleType == TypeOf(rule)
  {
    if !IsObject(rule) then None
    else
      var t := TypeOf(rule);
      var hierarchy := SupportsHierarchy(t);
      var descendants := hierarchy && Truthy(Prop(rule, "include_descendants"));
      var children := hierarchy && (Truthy(Prop(rule, "include_children")) || descendants);
      var value :=
        if t == "user_role" then ""
        else if Get(rule, "value").Some? && Get(rule, "value").value != JNull then Js.ToString(Get(rule, "value").value)
        else "";
      Some(ScriptRule(t, value, children, descendants,
        if t == "taxonomy" then Some(StringProp(rule, "taxonomy")) else None,
        if t == "user_role" then Some(RoleValues(rule)) else None,
        if t == "schedule" then Some(StringProp(rule, "start_date")) else None,
        if t == "schedule" then Some(StringProp(rule, "end_date")) else None,
        if t == "url_param" then Some(StringProp(rule, "param_name")) else None,
        if t == "url_param" then Some(StringProp(rule, "param_value")) else None))
  }

  /** `normalizeRule`: start from the default rule of the type and overwrite it step by step. */
  method NormalizeRule(rule: Json) returns (result: Option<ScriptRule>)
    ensures result == NormalizedRule(rule)
  {
    if !Truthy(rule) || !IsObject(rule) {
      return None;
    }
    var t := TypeOf(rule);
    var normalized := GetDefaultRule(t);
    if Get(rule, "value").Some? && Get(rule, "value").value != JNull {
      normalized := normalized.(value := Js.ToString(Get(rule, "value").value));
    }
    normalized := normalized.(includeChildren := Truthy(Prop(rule, "include_children")));
    normalized := normalized.(includeDescendants := Truthy(Prop(rule, "include_descendants")));
    if normalized.includeDescendants {
      normalized := normalized.(includeChildren := true);
    }
    if t == "taxonomy" {
      normalized := normalized.(taxonomy := Some(if Prop(rule, "taxonomy").JStr? then Prop(rule, "taxonomy").s else ""));
    }
    if t == "user_role" {
      var values := ReadRoleValues(rule);
      normalized := normalized.(values := Some(values));
      normalized := normalized.(value := "", includeChildren := false, includeDescendants := false);
    }
    if t == "schedule" {
      normalized := normalized.(startDate := Some(StringProp(rule, "start_date")), endDate := Some(StringProp(rule, "end_date")));
    }
    if t == "url_param" {
      normalized := normalized.(paramName := Some(StringProp(rule, "param_name")), paramValue := Some(StringProp(rule, "param_value")));
    }
    if !SupportsHierarchy(t) {
      normalized := normalized.(includeChildren := false, includeDescendants := false);
    }
    return Some(normalized);
  }

  /** The `values` branch of `normalizeRule` for a user_role rule. */
  method ReadRoleValues(rule: Json) returns (values: seq<string>)
    ensures values == RoleValues(rule)
  {
    if Prop(rule, "values").JList? {
      var items := Prop(rule, "values").items;
      values := seq(|items|, i requires 0 <= i < |items| => Js.ToString(items[i]));
    } else if Prop(rule, "value").JStr? && Prop(rule, "value").s != "" {
      values := [Prop(rule, "value").s];
    } else {
      values := [];
    }
  }

  /** One `forEach` step of `getVisibilityData`: the normalized rule, or nothing when it is null. */
  function NormalizeStep(rule: Json): seq<ScriptRule>
  {
    if NormalizedRule(rule).Some? then [NormalizedRule(rule).value] else []
  }

  /** What `getVisibilityData` cannot read: an empty value, a `JSON.parse` that throws, or a falsy or non-object result. */
  predicate Unreadable(stored: string, parsed: Option<Json>)
  {
    stored == "" || parsed.None? || !Truthy(parsed.value) || !IsObject(parsed.value)
  }

  /** `parsed.rules` when it is an array, else nothing. */
  function RuleItems(p: Json): seq<Json>
  {
    if Prop(p, "rules").JList? then Prop(p, "rules").items else []
  }

  /**
   * The form state read from the hidden field's text `stored`, whose
   * `JSON.parse` is `parsed` (None when it throws): the fallback when it
   * cannot be read; otherwise 'hide' only for exactly "hide", `match_all`
   * by truthiness, and the normalized object rules in order, the others
   * dropped.
   */
  function VisibilityData(stored: string, parsed: Option<Json>): (r: ScriptData)
    ensures forall i :: 0 <= i < |r.rules| ==> Normal(r.rules[i])
    ensures Unreadable(stored, parsed) ==> r == Fallback
    ensures !Unreadable(stored, parsed) ==>
      r.action == (if Prop(parsed.value, "action") == JStr("hide") then Hide else Show) &&
      r.matchAll == Truthy(Prop(parsed.value, "match_all"))
    ensures !Unreadable(stored, parsed) ==>
      var objects := Filter(IsObject, RuleItems(parsed.value));
      |r.rules| == |objects| && forall k :: 0 <= k < |objects| ==> NormalizedRule(objects[k]) == Some(r.rules[k])
  {
    if Unreadable(stored, parsed) then Fallback
    else
      var p := parsed.value;
      var rules := Collect(NormalizeStep, RuleItems(p));
      CollectAll(NormalizeStep, RuleItems(p), Normal);
      CollectNormalized(RuleItems(p));
      ScriptData(if Prop(p, "action") == JStr("hide") then Hide else Show, Truthy(Prop(p, "match_all")), rules)
  }

  /** The `forEach` keeps one normalized rule per object item, in order, and drops the rest. */
  lemma {:induction false} CollectNormalized(items: seq<Json>)
    ensures var objects := Filter(IsObject, items); var rules := Collect(NormalizeStep, items);
      |rules| == |objects| && forall k :: 0 <= k < |objects| ==> NormalizedRule(objects[k]) == Some(rules[k])
    decreases |items|
  {
    if |items| > 0 {
      var init, last := items[..|items| - 1], items[|items| - 1];
      CollectNormalized(init);
      assert Filter(IsObject, items) == Filter(IsObject, init) + (if IsObject(last) then [last] else []);
      assert Collect(NormalizeStep, items) == Collect(NormalizeStep, init) + NormalizeStep(last);
    }
  }

  /** `getVisibilityData`: the fallback for an empty, unparsable or non-object value; else the normalized state. */
  method GetVisibilityData(stored: string, parsed: Option<Json>) returns (data: ScriptData)
    ensures data == VisibilityData(stored, parsed)
  {
    if stored == "" {
      return Fallback;
    }
    if parsed.None? || !Truthy(parsed.value) || !IsObject(parsed.value) {
      return Fallback;
    }
    var p := parsed.value;
    data := ScriptData(if Prop(p, "action") == JStr("hide") then Hide else Show, Truthy(Prop(p, "match_all")), []);
    if Prop(p, "rules").JList? {
      var items := Prop(p, "rules").items;
      for i := 0 to |items|
        invariant data.action == VisibilityData(stored, parsed).action
        invariant data.matchAll == VisibilityData(stored, parsed).matchAll
        invariant data.rules == Collect(NormalizeStep, items[..i])
      {
        var normalizedRule := NormalizeRule(items[i]);
        if normalizedRule.Some? {
          data := data.(rules := data.rules + [normalizedRule.value]);
        }
        CollectStep(NormalizeStep, items, i);
      }
      assert items[..|items|] == items;
    }
  }

  // ---------------------------------------------------------------- the stringified form

  /** The properties every rule has, in the order `getDefaultRule` creates them. */
  function CommonMembers(r: ScriptRule): seq<(string, Json)>
  {
    [("type", JStr(r.ruleType)), ("value", JStr(r.value)),
     ("include_children", JBool(r.includeChildren)),
     ("include_descendants", JBool(r.includeDescendants))]
  }

  function OrEmpty<T>(o: Option<T>, empty: T): T
  {
    if o.Some? then o.value else empty
  }

  /** The properties only the rule's type has; a normal rule carries exactly these. */
  function ExtraMembers(r: ScriptRule): seq<(string, Json)>
  {
    if r.ruleType == "taxonomy" then [("taxonomy", JStr(OrEmpty(r.taxonomy, "")))]
    else if r.ruleType == "user_role" then [("values", JList(StringList(OrEmpty(r.values, []))))]
    else if r.ruleType == "schedule" then
      [("start_date", JStr(OrEmpty(r.startDate, ""))), ("end_date", JStr(OrEmpty(r.endDate, "")))]
    else if r.ruleType == "url_param" then
      [("param_name", JStr(OrEmpty(r.paramName, ""))), ("param_value", JStr(OrEmpty(r.paramValue, "")))]
    else []
  }

  /** `JSON.stringify` of a normal rule. */
  function RuleJson(r: ScriptRule): Json
  {
    JObject(CommonMembers(r) + ExtraMembers(r))
  }

  /** The extras never hide a common property. */
  lemma ExtraKeys(r: ScriptRule)
    ensures Lookup(ExtraMembers(r), "type").None?
    ensures Lookup(ExtraMembers(r), "value").None?
    ensures Lookup(ExtraMembers(r), "include_children").None?
    ensures Lookup(ExtraMembers(r), "include_descendants").None?
  {
    var m := ExtraMembers(r);
    LookupFound(m, "type");
    LookupFound(m, "value");
    LookupFound(m, "include_children");
    LookupFound(m, "include_descendants");
  }

  lemma CommonKeys(r: ScriptRule)
    ensures Lookup(CommonMembers(r), "type") == Some(JStr(r.ruleType))
    ensures Lookup(CommonMembers(r), "value") == Some(JStr(r.value))
    ensures Lookup(CommonMembers(r), "include_children") == Some(JBool(r.includeChildren))
    ensures Lookup(CommonMembers(r), "include_descendants") == Some(JBool(r.includeDescendants))
  {
    var m := CommonMembers(r);
    LookupLast(m, 0);
    LookupLast(m, 1);
    LookupLast(m, 2);
    LookupLast(m, 3);
  }

  /** The common properties of a stringified rule read back. */
  lemma RuleJsonCommon(r: ScriptRule)
    ensures Prop(RuleJson(r), "type") == JStr(r.ruleType)
    ensures Get(RuleJson(r), "value") == Some(JStr(r.value))
    ensures Prop(RuleJson(r), "include_children") == JBool(r.includeChildren)
    ensures Prop(RuleJson(r), "include_descendants") == JBool(r.includeDescendants)
  {
    ExtraKeys(r);
    CommonKeys(r);
    LookupAppend(CommonMembers(r), ExtraMembers(r), "type");
    LookupAppend(CommonMembers(r), ExtraMembers(r), "value");
    LookupAppend(CommonMembers(r), ExtraMembers(r), "include_children");
    LookupAppend(CommonMembers(r), ExtraMembers(r), "include_descendants");
  }

  /** The extra properties of a stringified normal rule read back. */
  lemma RuleJsonExtras(r: ScriptRule)
    requires Normal(r)
    ensures r.taxonomy.Some? ==> Prop(RuleJson(r), "taxonomy") == JStr(r.taxonomy.value)
    ensures r.values.Some? ==> Prop(RuleJson(r), "values") == JList(StringList(r.values.value))
    ensures r.startDate.Some? ==> Prop(RuleJson(r), "start_date") == JStr(r.startDate.value)
    ensures r.endDate.Some? ==> Prop(RuleJson(r), "end_date") == JStr(r.endDate.value)
    ensures r.paramName.Some? ==> Prop(RuleJson(r), "param_name") == JStr(r.paramName.value)
    ensures r.paramValue.Some? ==> Prop(RuleJson(r), "param_value") == JStr(r.paramValue.value)
  {
    var extras := ExtraMembers(r);
    if r.ruleType == "taxonomy" {
      LookupAppend(CommonMembers(r), extras, "taxonomy");
    } else if r.ruleType == "user_role" {
      LookupAppend(CommonMembers(r), extras, "values");
    } else if r.ruleType == "schedule" {
      LookupAppend(CommonMembers(r), extras, "start_date");
      LookupAppend(CommonMembers(r), extras, "end_date");
    } else if r.ruleType == "url_param" {
      LookupAppend(CommonMembers(r), extras, "param_name");
      LookupAppend(CommonMembers(r), extras, "param_value");
    }
  }

  /** Normalizing a stringified normal rule gives it back: `normalizeRule` is idempotent. */
  lemma NormalizeRuleJson(r: ScriptRule)
    requires Normal(r)
    ensures NormalizedRule(RuleJson(r)) == Some(r)
  {
    RuleJsonCommon(r);
    RuleJsonExtras(r);
    if r.ruleType == "user_role" {
      var items := StringList(r.values.value);
      assert RoleValues(RuleJson(r)) == r.values.value;
    }
  }

  function RulesJson(rules: seq<ScriptRule>): (r: seq<Json>)
    ensures |r| == |rules| && forall i :: 0 <= i < |rules| ==> r[i] == RuleJson(rules[i])
  {
    seq(|rules|, i requires 0 <= i < |rules| => RuleJson(rules[i]))
  }

  /** `JSON.stringify` of the form state. */
  function DataJson(d: ScriptData): Json
  {
    JObject([("action", JStr(if d.action == Hide then "hide" else "show")),
             ("match_all", JBool(d.matchAll)),
             ("rules", JList(RulesJson(d.rules)))])
  }

  lemma DataJsonFields(d: ScriptData)
    ensures Prop(DataJson(d), "action") == JStr(if d.action == Hide then "hide" else "show")
    ensures Prop(DataJson(d), "match_all") == JBool(d.matchAll)
    ensures Prop(DataJson(d), "rules") == JList(RulesJson(d.rules))
  {
    var m := DataJson(d).members;
    LookupLast(m, 0);
    LookupLast(m, 1);
    LookupLast(m, 2);
  }

  /** Normalizing the stringified normal rules, dropping nulls, gives the rules back. */
  lemma CollectRulesJson(rules: seq<ScriptRule>)
    requires forall i :: 0 <= i < |rules| ==> Normal(rules[i])
    ensures Collect(NormalizeStep, RulesJson(rules)) == rules
  {
    var items := RulesJson(rules);
    forall t | t in items
      ensures NormalizeStep(t) == [NormalizedRule(t).value]
    {
      var i :| 0 <= i < |items| && items[i] == t;
      NormalizeRuleJson(rules[i]);
    }
    CollectIdentity(NormalizeStep, items, t => if NormalizedRule(t).Some? then NormalizedRule(t).value else DefaultRule(""));
    forall i | 0 <= i < |items|
      ensures Collect(NormalizeStep, items)[i] == rules[i]
    {
      NormalizeRuleJson(rules[i]);
    }
  }

  /** Reading back a stringified state whose rules are normal gives the same state. */
  lemma VisibilityDataOfJson(stored: string, d: ScriptData)
    requires stored != ""
    requires forall i :: 0 <= i < |d.rules| ==> Normal(d.rules[i])
    ensures VisibilityData(stored, Some(DataJson(d))) == d
  {
    DataJsonFields(d);
    CollectRulesJson(d.rules);
    ReadsBackAs(stored, DataJson(d), d);
  }

  /** Any object whose three properties read back as those of `d` gives `d`. */
  lemma ReadsBackAs(stored: string, p: Json, d: ScriptData)
    requires stored != "" && p.JObject?
    requires Prop(p, "action") == JStr(if d.action == Hide then "hide" else "show")
    requires Prop(p, "match_all") == JBool(d.matchAll)
    requires Prop(p, "rules").JList? && Collect(NormalizeStep, Prop(p, "rules").items) == d.rules
    ensures VisibilityData(stored, Some(p)) == d
  {
  }

  /** Reading the field, saving what was read and reading it again changes nothing. */
  lemma VisibilityDataIdempotent(stored: string, parsed: Option<Json>, restored: string)
    requires restored != ""
    ensures VisibilityData(restored, Some(DataJson(VisibilityData(stored, parsed)))) == VisibilityData(stored, parsed)
  {
    VisibilityDataOfJson(restored, VisibilityData(stored, parsed));
  }

  // ---------------------------------------------------------------- the hierarchy checkboxes

  datatype Checkbox = IncludeChildren | IncludeDescendants

  /** The two hierarchy checkboxes of one rule row. */
  class HierarchyOptions {
    var children: bool
    var descendants: bool

    constructor(children: bool, descendants: bool)
      ensures this.children == children && this.descendants == descendants
    {
      this.children := children;
      this.descendants := descendants;
    }

    /**
     * The browser sets the clicked box to `checked`, then the change handler
     * checks children when descendants was checked and unchecks descendants
     * when children was unchecked.
     */
    method Change(box: Checkbox, checked: bool)
      modifies this
      ensures box == IncludeChildren ==> children == checked && descendants == (old(descendants) && checked)
      ensures box == IncludeDescendants ==> descendants == checked && children == (old(children) || checked)
      ensures descendants ==> children
    {
      if box == IncludeChildren {
        children := checked;
      } else {
        descendants := checked;
      }
      if box == IncludeDescendants && descendants {
        children := true;
      }
      if box == IncludeChildren && !children {
        descendants := false;
      }
    }
  }

  // ---------------------------------------------------------------- escaping

  /** `s.replace(/c/g, replacement)`. */
  function ReplaceAll(s: string, c: char, replacement: string): (r: string)
    ensures c !in replacement ==> c !in r
  {
    if |s| == 0 then []
    else (if s[0] == c then replacement else [s[0]]) + ReplaceAll(s[1..], c, replacement)
  }

  lemma {:induction false} ReplaceAllAppend(a: string, b: string, c: char, replacement: string)
    ensures ReplaceAll(a + b, c, replacement) == ReplaceAll(a, c, replacement) + ReplaceAll(b, c, replacement)
    decreases |a|
  {
    if |a| == 0 {
      assert a + b == b;
    } else {
      assert (a + b)[1..] == a[1..] + b;
      ReplaceAllAppend(a[1..], b, c, replacement);
    }
  }

  /** The replacement chain of `escapeHtml`, '&' first. */
  function EscapeChain(s: string): string
  {
    ReplaceAll(ReplaceAll(ReplaceAll(ReplaceAll(ReplaceAll(s, '&', "&amp;"), '<', "&lt;"), '>', "&gt;"), '"', "&quot;"), '\'', "&#039;")
  }

  /** `escapeHtml`: '' for a falsy value, else the escaped text of `String(text)`. */
  function EscapeHtml(text: Json): (r: string)
    ensures !Truthy(text) ==> r == ""
  {
    if !Truthy(text) then "" else EscapeChain(Js.ToString(text))
  }

  /** The entity one character becomes. */
  function EscapeChar(c: char): string
  {
    if c == '&' then "&amp;"
    else if c == '<' then "&lt;"
    else if c == '>' then "&gt;"
    else if c == '"' then "&quot;"
    else if c == '\'' then "&#039;"
    else [c]
  }

  /** Escaping character by character, in one pass. */
  function Escape(s: string): (r: string)
    ensures '<' !in r && '>' !in r && '"' !in r && '\'' !in r
  {
    if |s| == 0 then [] else EscapeChar(s[0]) + Escape(s[1..])
  }

  lemma EscapeChainDistributes(a: string, b: string)
    ensures EscapeChain(a + b) == EscapeChain(a) + EscapeChain(b)
  {
    ReplaceAllAppend(a, b, '&', "&amp;");
    var a1, b1 := ReplaceAll(a, '&', "&amp;"), ReplaceAll(b, '&', "&amp;");
    ReplaceAllAppend(a1, b1, '<', "&lt;");
    var a2, b2 := ReplaceAll(a1, '<', "&lt;"), ReplaceAll(b1, '<', "&lt;");
    ReplaceAllAppend(a2, b2, '>', "&gt;");
    var a3, b3 := ReplaceAll(a2, '>', "&gt;"), ReplaceAll(b2, '>', "&gt;");
    ReplaceAllAppend(a3, b3, '"', "&quot;");
    var a4, b4 := ReplaceAll(a3, '"', "&quot;"), ReplaceAll(b3, '"', "&quot;");
    ReplaceAllAppend(a4, b4, '\'', "&#039;");
  }

  lemma ReplaceAllOne(c: char, x: char, replacement: string)
    ensures ReplaceAll([c], x, replacement) == if c == x then replacement else [c]
  {
    assert [c][1..] == [];
  }

  lemma {:induction false} ReplaceAllAbsent(s: string, x: char, replacement: string)
    requires x !in s
    ensures ReplaceAll(s, x, replacement) == s
    decreases |s|
  {
    if |s| > 0 {
      ReplaceAllAbsent(s[1..], x, replacement);
      assert s == [s[0]] + s[1..];
    }
  }

  /** The five stages of `escapeHtml`'s chain. */
  function Stage1(s: string): string { ReplaceAll(s, '&', "&amp;") }
  function Stage2(s: string): string { ReplaceAll(s, '<', "&lt;") }
  function Stage3(s: string): string { ReplaceAll(s, '>', "&gt;") }
  function Stage4(s: string): string { ReplaceAll(s, '"', "&quot;") }
  function Stage5(s: string): string { ReplaceAll(s, '\'', "&#039;") }

  /** An entity written by one stage passes the later stages unchanged. */
  lemma LaterStagesKeep(e: string, first: nat)
    requires 2 <= first <= 6
    requires '&' in e || first == 2
    requires first <= 2 ==> '<' !in e
    requires first <= 3 ==> '>' !in e
    requires first <= 4 ==> '"' !in e
    requires first <= 5 ==> '\'' !in e
    ensures first <= 2 ==> Stage5(Stage4(Stage3(Stage2(e)))) == e
    ensures first == 3 ==> Stage5(Stage4(Stage3(e))) == e
    ensures first == 4 ==> Stage5(Stage4(e)) == e
    ensures first == 5 ==> Stage5(e) == e
  {
    if first <= 2 {
      ReplaceAllAbsent(e, '<', "&lt;");
    }
    if first <= 3 {
      ReplaceAllAbsent(e, '>', "&gt;");
    }
    if first <= 4 {
      ReplaceAllAbsent(e, '"', "&quot;");
    }
    if first <= 5 {
      ReplaceAllAbsent(e, '\'', "&#039;");
    }
  }

  /** A character with no entity passes every stage unchanged. */
  lemma EscapeChainPlain(c: char)
    requires c != '&' && c != '<' && c != '>' && c != '"' && c != '\''
    ensures EscapeChain([c]) == [c]
  {
    ReplaceAllOne(c, '&', "&amp;");
    ReplaceAllOne(c, '<', "&lt;");
    ReplaceAllOne(c, '>', "&gt;");
    ReplaceAllOne(c, '"', "&quot;");
    ReplaceAllOne(c, '\'', "&#039;");
  }

  /** A special character becomes its entity at its own stage and keeps it after. */
  lemma EscapeChainSpecial(c: char)
    requires c == '&' || c == '<' || c == '>' || c == '"' || c == '\''
    ensures EscapeChain([c]) == EscapeChar(c)
  {
    ReplaceAllOne(c, '&', "&amp;");
    if c == '&' {
      LaterStagesKeep("&amp;", 2);
    } else {
      ReplaceAllOne(c, '<', "&lt;");
      if c == '<' {
        LaterStagesKeep("&lt;", 3);
      } else {
        ReplaceAllOne(c, '>', "&gt;");
        if c == '>' {
          LaterStagesKeep("&gt;", 4);
        } else {
          ReplaceAllOne(c, '"', "&quot;");
          if c == '"' {
            LaterStagesKeep("&quot;", 5);
          } else {
            ReplaceAllOne(c, '\'', "&#039;");
          }
        }
      }
    }
  }

  /** One character goes through the chain to its entity. */
  lemma EscapeChainChar(c: char)
    ensures EscapeChain([c]) == EscapeChar(c)
  {
    if c == '&' || c == '<' || c == '>' || c == '"' || c == '\'' {
      EscapeChainSpecial(c);
    } else {
      EscapeChainPlain(c);
    }
  }

  /**
   * Because '&' is replaced first and no entity holds a character replaced
   * later, the chain escapes every character exactly once.
   */
  lemma {:induction false} EscapeChainIsEscape(s: string)
    ensures EscapeChain(s) == Escape(s)
    decreases |s|
  {
    if |s| > 0 {
      assert s == [s[0]] + s[1..];
      EscapeChainDistributes([s[0]], s[1..]);
      EscapeChainChar(s[0]);
      EscapeChainIsEscape(s[1..]);
    }
  }

  /** The escaped text holds no '<', '>', '"' or '\''. */
  lemma EscapeHtmlIsSafe(text: Json)
    ensures '<' !in EscapeHtml(text) && '>' !in EscapeHtml(text)
    ensures '"' !in EscapeHtml(text) && '\'' !in EscapeHtml(text)
  {
    if Truthy(text) {
      EscapeChainIsEscape(Js.ToString(text));
    }
  }

  /** Decoding the five entities the escaper writes. */
  function Unescape(t: string): string
    decreases |t|
  {
    if |t| == 0 then []
    else if |t| >= 5 && t[..5] == "&amp;" then "&" + Unescape(t[5..])
    else if |t| >= 4 && t[..4] == "&lt;" then "<" + Unescape(t[4..])
    else if |t| >= 4 && t[..4] == "&gt;" then ">" + Unescape(t[4..])
    else if |t| >= 6 && t[..6] == "&quot;" then "\"" + Unescape(t[6..])
    else if |t| >= 6 && t[..6] == "&#039;" then "'" + Unescape(t[6..])
    else [t[0]] + Unescape(t[1..])
  }

  /** Text not starting with '&' decodes its first character as itself. */
  lemma UnescapePlain(t: string)
    requires |t| > 0 && t[0] != '&'
    ensures Unescape(t) == [t[0]] + Unescape(t[1..])
  {
    if |t| >= 4 {
      assert t[..4][0] == t[0];
    }
    if |t| >= 5 {
      assert t[..5][0] == t[0];
    }
    if |t| >= 6 {
      assert t[..6][0] == t[0];
    }
  }

  /** An entity decodes to its character. */
  lemma UnescapeSpecial(c: char, rest: string)
    requires c == '&' || c == '<' || c == '>' || c == '"' || c == '\''
    ensures Unescape(EscapeChar(c) + rest) == [c] + Unescape(rest)
  {
    var e := EscapeChar(c);
    var t := e + rest;
    assert t[..|e|] == e && t[|e|..] == rest;
    if c != '&' {
      assert |t| >= 5 ==> t[..5][1] == e[1] != 'a';
    }
    if c == '"' || c == '\'' {
      assert t[..4][1] == e[1];
    }
    if c == '\'' {
      assert t[..6][1] == e[1];
    }
  }

  /** An entity decodes to its character, and any other character stands for itself. */
  lemma UnescapeEntity(c: char, rest: string)
    ensures Unescape(EscapeChar(c) + rest) == [c] + Unescape(rest)
  {
    if c == '&' || c == '<' || c == '>' || c == '"' || c == '\'' {
      UnescapeSpecial(c, rest);
    } else {
      var t := EscapeChar(c) + rest;
      assert t[0] == c && t[1..] == rest;
      UnescapePlain(t);
    }
  }

  /** Escaping loses nothing: decoding the entities gives the text back. */
  lemma {:induction false} UnescapeEscape(s: string)
    ensures Unescape(Escape(s)) == s
    decreases |s|
  {
    if |s| > 0 {
      UnescapeEntity(s[0], Escape(s[1..]));
      UnescapeEscape(s[1..]);
      assert s == [s[0]] + s[1..];
    }
  }

  /** For a truthy value, decoding `escapeHtml`'s output gives `String(text)` back. */
  lemma EscapeHtmlRoundTrip(text: Json)
    requires Truthy(text)
    ensures Unescape(EscapeHtml(text)) == Js.ToString(text)
  {
    EscapeChainIsEscape(Js.ToString(text));
    UnescapeEscape(Js.ToString(text));
  }
}
