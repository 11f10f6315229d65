/**
 * The save-time side of the widget admin screen: the role and taxonomy
 * allow-lists, `sanitize_visibility_data`, which turns whatever the browser
 * posted into the canonical configuration of the `Rules` module, and the
 * depth walk that indents category options.
 */
module Admin {
  import opened Values
  import opened Php
  import opened Rules

  datatype TaxonomyInfo = TaxonomyInfo(isPublic: bool, hierarchical: bool)

  /** What the sanitizer asks WordPress about the site. */
  datatype Site = Site(
    publicPostTypes: seq<string>,           // get_post_types(['public' => true], 'names')
    roleNames: seq<string>,                 // the role slugs registered in wp_roles()
    taxonomies: map<string, TaxonomyInfo>,  // get_taxonomy
    terms: set<(string, nat)>)              // (taxonomy, term id) pairs get_term finds

  // ---------------------------------------------------------------- allow-lists

  /** `array_map('sanitize_key', get_post_types(...))`. */
  function ValidPostTypes(site: Site): (r: seq<string>)
    ensures forall s :: s in r ==> IsKey(s)
  {
    seq(|site.publicPostTypes|, i requires 0 <= i < |site.publicPostTypes| => SanitizeKey(site.publicPostTypes[i]))
  }

  /**
   * The slug one registered role contributes: `get_user_roles` reports it as
   * `sanitize_key($slug)`, and `get_role_slugs` keeps it when it is not empty
   * (so neither '' nor '0') and sanitizes it once more.
   */
  function RoleSlugOf(name: string): (r: seq<string>)
    ensures |r| <= 1
  {
    var id := SanitizeKey(name);
    if id == "" || id == "0" then [] else [SanitizeKey(id)]
  }

  /** The role slugs a `user_role` rule may name, without repeats. */
  function RoleSlugs(site: Site): (r: seq<string>)
    ensures Distinct(r)
    ensures forall s :: s in r ==> IsKey(s) && s != "" && s != "0"
  {
    RoleSlugsAreKeys(site.roleNames);
    Dedup(Collect(RoleSlugOf, site.roleNames))
  }

  lemma RoleSlugsAreKeys(names: seq<string>)
    ensures forall s :: s in Collect(RoleSlugOf, names) ==> IsKey(s) && s != "" && s != "0"
  {
    forall name, s | name in names && s in RoleSlugOf(name)
      ensures IsKey(s) && s != "" && s != "0"
    {
      SanitizeKeyOfKey(SanitizeKey(name));
    }
    CollectAll(RoleSlugOf, names, s => IsKey(s) && s != "" && s != "0");
  }

  /** `get_role_slugs`. */
  method GetRoleSlugs(site: Site) returns (slugs: seq<string>)
    ensures slugs == RoleSlugs(site)
  {
    var found: seq<string> := [];
    for i := 0 to |site.roleNames|
      invariant found == Collect(RoleSlugOf, site.roleNames[..i])
    {
      CollectStep(RoleSlugOf, site.roleNames, i);
      var id := SanitizeKey(site.roleNames[i]);
      if id != "" && id != "0" {
        found := found + [SanitizeKey(id)];
      }
    }
    assert site.roleNames[..|site.roleNames|] == site.roleNames;
    slugs := Dedup(found);
  }

  /** `is_valid_hierarchical_taxonomy`: a registered, public, hierarchical taxonomy other than 'category'. */
  predicate IsValidHierarchicalTaxonomy(site: Site, taxonomy: string)
  {
    taxonomy != "" && taxonomy != "category" && taxonomy in site.taxonomies &&
    site.taxonomies[taxonomy].isPublic && site.taxonomies[taxonomy].hierarchical
  }

  // ---------------------------------------------------------------- field readers

  /** `sanitize_text_field((string) $rule[$key])` when the member is set and scalar, else ''. */
  function RuleText(rule: Json, key: string): (r: string)
    ensures IsCleanText(r)
  {
    var v := Field(rule, key);
    if IsScalar(v) then SanitizeTextField(ToStr(v)) else ""
  }

  /** The rule's `value`, sanitized and cut to 100 bytes. */
  function RuleValue(rule: Json): (r: string)
    ensures IsCleanText(r) && |r| <= MaxValueLength
    ensures var t := RuleText(rule, "value");
      r <= t && (|t| <= MaxValueLength ==> r == t) && (|t| > MaxValueLength ==> |r| == MaxValueLength)
  {
    TruncateKeepsClean(RuleText(rule, "value"), MaxValueLength);
    Truncate(RuleText(rule, "value"), MaxValueLength)
  }

  /** `YYYY-MM-DD` with ASCII digits. */
  predicate IsDate(s: string)
  {
    |s| == 10 && s[4] == '-' && s[7] == '-' &&
    IsDigit(s[0]) && IsDigit(s[1]) && IsDigit(s[2]) && IsDigit(s[3]) &&
    IsDigit(s[5]) && IsDigit(s[6]) && IsDigit(s[8]) && IsDigit(s[9])
  }

  /** `preg_match('/^\d{4}-\d{2}-\d{2}$/', $s)`: `$` also matches before one final line feed. */
  predicate MatchesDatePattern(s: string)
  {
    IsDate(s) || (|s| == 11 && s[10] == '\n' && IsDate(s[..10]))
  }

  /** A schedule date: the sanitized text when it matches the date pattern, else ''. */
  function DateField(rule: Json, key: string): (r: string)
    ensures r == "" || IsDate(r)
    ensures MatchesDatePattern(RuleText(rule, key)) ==> r == RuleText(rule, key)
    ensures !MatchesDatePattern(RuleText(rule, key)) ==> r == ""
  {
    var t := RuleText(rule, key);
    if t != "" && !MatchesDatePattern(t) then ""
    else
      assert forall i :: 0 <= i < |t| ==> t[i] != '\n';
      t
  }

  // ---------------------------------------------------------------- roles of one rule

  /** The candidates of a `user_role` rule: its `values` array, else its single `value`. */
  function RoleCandidates(rule: Json, value: string): seq<Json>
  {
    var values := Field(rule, "values");
    if IsArray(values) then Elements(values)
    else if value != "" then [JStr(value)]
    else []
  }

  /** The slug one candidate contributes: a scalar whose key is a non-empty valid role. */
  function RoleCandidate(valid: seq<string>, candidate: Json): (r: seq<string>)
    ensures |r| <= 1
  {
    if !IsScalar(candidate) then []
    else
      var slug := SanitizeKey(ToStr(candidate));
      if slug != "" && slug in valid then [slug] else []
  }

  function RoleStep(valid: seq<string>): Json -> seq<string>
  {
    c => RoleCandidate(valid, c)
  }

  /** The roles a rule keeps: the first 20 valid candidates, then without repeats. */
  function SelectedRoles(valid: seq<string>, candidates: seq<Json>): (r: seq<string>)
    ensures Distinct(r) && |r| <= MaxRoleValues
    ensures forall s :: s in r ==> s != "" && s in valid
  {
    CandidateRolesValid(valid, candidates);
    Dedup(Take(Collect(RoleStep(valid), candidates), MaxRoleValues))
  }

  lemma CandidateRolesValid(valid: seq<string>, candidates: seq<Json>)
    ensures forall s :: s in Collect(RoleStep(valid), candidates) ==> s != "" && s in valid
  {
    CollectAll(RoleStep(valid), candidates, s => s != "" && s in valid);
  }

  /** The candidate loop of the `user_role` branch: stops once 20 roles are kept. */
  method CollectRoles(valid: seq<string>, candidates: seq<Json>) returns (roles: seq<string>)
    ensures roles == SelectedRoles(valid, candidates)
  {
    var kept: seq<string> := [];
    var i := 0;
    while i < |candidates|
      invariant i <= |candidates|
      invariant kept == Collect(RoleStep(valid), candidates[..i])
      invariant |kept| <= MaxRoleValues
    {
      if |kept| >= MaxRoleValues {
        break;
      }
      CollectStep(RoleStep(valid), candidates, i);
      var candidate := candidates[i];
      if IsScalar(candidate) {
        var slug := SanitizeKey(ToStr(candidate));
        if slug != "" && slug in valid {
          kept := kept + [slug];
        }
      }
      i := i + 1;
    }
    CollectPrefix(RoleStep(valid), candidates, i);
    if i < |candidates| {
      TakeOfLongPrefix(kept, Collect(RoleStep(valid), candidates[i..]), MaxRoleValues);
    } else {
      assert candidates[..i] == candidates;
    }
    roles := Dedup(kept);
  }

  // ---------------------------------------------------------------- one rule

  /** The id `absint($value)` reads, which the sanitizer requires to be positive. */
  function ValueId(value: string): nat
  {
    AbsInt(JStr(value))
  }

  /** An id whose decimal form fits the 100-byte value cap. */
  predicate IdFits(id: nat)
  {
    |NatToString(id)| <= MaxValueLength
  }

  /** An id read from a capped value prints within the cap. */
  lemma ValueIdFits(value: string)
    requires |value| <= MaxValueLength
    ensures IdFits(ValueId(value))
  {
    LeadingIntBound(value);
    Pow10Monotone(|value|, MaxValueLength);
    NatToStringLength(ValueId(value), MaxValueLength);
  }

  /** What every stored rule satisfies: the facts the sanitizer checked, and the caps it applied. */
  predicate WellFormed(site: Site, r: Rule)
  {
    match r
    case Page(id, _, _) => IdFits(id)
    case Category(id, _, _) => IdFits(id)
    case Tag(id) => IdFits(id)
    case Author(id) => IdFits(id)
    case PostType(slug) => slug != "" && slug in ValidPostTypes(site) && |slug| <= MaxValueLength
    case Taxonomy(taxonomy, id, _, _) =>
      IsKey(taxonomy) && IsValidHierarchicalTaxonomy(site, taxonomy) && (taxonomy, id) in site.terms && IdFits(id)
    case UserRole(roles) =>
      0 < |roles| <= MaxRoleValues && Distinct(roles) &&
      forall i :: 0 <= i < |roles| ==> roles[i] != "" && roles[i] in RoleSlugs(site)
    case Schedule(s, e) => (s != "" || e != "") && (s == "" || IsDate(s)) && (e == "" || IsDate(e))
    case UrlParam(n, v) =>
      n != "" && |n| <= MaxValueLength && |v| <= MaxValueLength && IsCleanText(n) && IsCleanText(v)
    case DeviceRule(_) => true
    case WooProductCat(id, _, _) => IdFits(id)
    case Flag(_, v) => |v| <= MaxValueLength && IsCleanText(v)
  }

  /** The kind `sanitize_key((string) $rule['type'])` names, for an array rule with a scalar type. */
  function RuleKind(rule: Json): (r: Option<Kind>)
    ensures r.Some? ==> IsArray(rule) && KindName(r.value) == SanitizeKey(ToStr(Field(rule, "type")))
  {
    if !IsArray(rule) || !IsScalar(Field(rule, "type")) then None
    else KindNamed(SanitizeKey(ToStr(Field(rule, "type"))))
  }

  /**
   * The page, category, tag, author and product-category branches, given
   * `absint($value)`: kept only for a positive id, with the options only
   * for the hierarchical kinds.
   */
  function IdRule(kind: Kind, id: nat, children: bool, descendants: bool): (r: Option<Rule>)
    requires kind == PageKind || kind == CategoryKind || kind == TagKind || kind == AuthorKind || kind == WooProductCatKind
    ensures r.Some? <==> id > 0
    ensures r.Some? ==> r.value.Kind() == kind
    ensures r.Some? ==> r.value.Page? || r.value.Category? || r.value.Tag? || r.value.Author? || r.value.WooProductCat?
    ensures r.Some? ==> r.value.id == id
    ensures r.Some? && r.value.HasHierarchy() ==>
      r.value.includeChildren == children && r.value.includeDescendants == descendants
  {
    if id == 0 then None
    else if kind == PageKind then Some(Page(id, children, descendants))
    else if kind == CategoryKind then Some(Category(id, children, descendants))
    else if kind == TagKind then Some(Tag(id))
    else if kind == AuthorKind then Some(Author(id))
    else Some(WooProductCat(id, children, descendants))
  }

  /** The `taxonomy` branch: a valid hierarchical taxonomy and a term of it that exists. */
  function TaxonomyRule(site: Site, rule: Json, value: string, children: bool, descendants: bool): (r: Option<Rule>)
    requires |value| <= MaxValueLength
    ensures r.Some? ==> r.value.Taxonomy? && WellFormed(site, r.value)
    ensures r.Some? ==> r.value.includeChildren == children && r.value.includeDescendants == descendants
    ensures var t := Field(rule, "taxonomy"); var taxonomy := SanitizeKey(ToStr(t));
      r.Some? <==> IsScalar(t) && IsValidHierarchicalTaxonomy(site, taxonomy) && ValueId(value) > 0 &&
                   (taxonomy, ValueId(value)) in site.terms
    ensures r.Some? ==> r.value == Taxonomy(SanitizeKey(ToStr(Field(rule, "taxonomy"))), ValueId(value), children, descendants)
  {
    var t := Field(rule, "taxonomy");
    if !IsScalar(t) then None
    else
      var taxonomy := SanitizeKey(ToStr(t));
      var id := ValueId(value);
      ValueIdFits(value);
      if !IsValidHierarchicalTaxonomy(site, taxonomy) || id == 0 || (taxonomy, id) !in site.terms then None
      else Some(Taxonomy(taxonomy, id, children, descendants))
  }

  /** The `user_role` branch: at least one role survives selection. */
  function UserRoleRule(site: Site, rule: Json, value: string): (r: Option<Rule>)
    ensures r.Some? ==> r.value.UserRole? && WellFormed(site, r.value)
    ensures r.Some? <==> SelectedRoles(RoleSlugs(site), RoleCandidates(rule, value)) != []
    ensures r.Some? ==> r.value.roles == SelectedRoles(RoleSlugs(site), RoleCandidates(rule, value))
  {
    var roles := SelectedRoles(RoleSlugs(site), RoleCandidates(rule, value));
    assert forall i :: 0 <= i < |roles| ==> roles[i] in roles;
    if roles == [] then None else Some(UserRole(roles))
  }

  /** The `post_type` branch: the value's key must name a public post type. */
  function PostTypeRule(site: Site, value: string): (r: Option<Rule>)
    requires |value| <= MaxValueLength
    ensures r.Some? ==> r.value.PostType? && WellFormed(site, r.value)
    ensures r.Some? <==> SanitizeKey(value) != "" && SanitizeKey(value) in ValidPostTypes(site)
    ensures r.Some? ==> r.value.slug == SanitizeKey(value)
  {
    var slug := SanitizeKey(value);
    if slug == "" || slug !in ValidPostTypes(site) then None else Some(PostType(slug))
  }

  /** The `schedule` branch: at least one of the two dates survives. */
  function ScheduleRule(rule: Json): (r: Option<Rule>)
    ensures r.Some? ==> r.value.Schedule? && (r.value.startDate != "" || r.value.endDate != "")
    ensures r.Some? ==> (r.value.startDate == "" || IsDate(r.value.startDate)) && (r.value.endDate == "" || IsDate(r.value.endDate))
    ensures r.Some? <==> DateField(rule, "start_date") != "" || DateField(rule, "end_date") != ""
    ensures r.Some? ==> r.value.startDate == DateField(rule, "start_date") && r.value.endDate == DateField(rule, "end_date")
  {
    var startDate := DateField(rule, "start_date");
    var endDate := DateField(rule, "end_date");
    if startDate == "" && endDate == "" then None else Some(Schedule(startDate, endDate))
  }

  /** The `url_param` branch: a parameter name is required; name and value are the sanitized members cut to 100 bytes. */
  function UrlParamRule(rule: Json): (r: Option<Rule>)
    ensures r.Some? <==> RuleText(rule, "param_name") != ""
    ensures r.Some? ==>
              r.value.UrlParam? && r.value.paramName != "" &&
              |r.value.paramName| <= MaxValueLength && |r.value.paramValue| <= MaxValueLength &&
              IsCleanText(r.value.paramName) && IsCleanText(r.value.paramValue)
    ensures r.Some? ==> var n := RuleText(rule, "param_name");
      r.value.paramName <= n &&
      (|n| <= MaxValueLength ==> r.value.paramName == n) && (|n| > MaxValueLength ==> |r.value.paramName| == MaxValueLength)
    ensures r.Some? ==> var v := RuleText(rule, "param_value");
      r.value.paramValue <= v &&
      (|v| <= MaxValueLength ==> r.value.paramValue == v) && (|v| > MaxValueLength ==> |r.value.paramValue| == MaxValueLength)
  {
    var name := RuleText(rule, "param_name");
    var paramValue := RuleText(rule, "param_value");
    TruncateKeepsClean(name, MaxValueLength);
    TruncateKeepsClean(paramValue, MaxValueLength);
    if name == "" then None
    else Some(UrlParam(Truncate(name, MaxValueLength), Truncate(paramValue, MaxValueLength)))
  }

  /** The `device` branch: the value's key must be 'mobile' or 'desktop'. */
  function DeviceOf(value: string): (r: Option<Rule>)
    ensures r.Some? <==> SanitizeKey(value) in {"mobile", "desktop"}
    ensures r.Some? ==> r.value.DeviceRule? && r.value.Value() == SanitizeKey(value)
  {
    var device := SanitizeKey(value);
    if device == "mobile" then Some(DeviceRule(Mobile))
    else if device == "desktop" then Some(DeviceRule(Desktop))
    else None
  }

  /**
   * One iteration of the rule loop of `sanitize_visibility_data`: the
   * canonical rule it appends, or None where the loop `continue`s.
   */
  function SanitizeRule(site: Site, rule: Json): (r: Option<Rule>)
    ensures r.Some? ==> WellFormed(site, r.value)
    ensures r.Some? ==> RuleKind(rule) == Some(r.value.Kind())
    ensures RuleKind(rule).None? ==> r.None?
    ensures RuleKind(rule).Some? && RuleKind(rule).value.FlagKindOf? ==>
      r == Some(Flag(RuleKind(rule).value.flag, RuleValue(rule)))
  {
    var kind := RuleKind(rule);
    if kind.None? then None
    else
      var value := RuleValue(rule);
      var children := BoolField(rule, "include_children");
      var descendants := BoolField(rule, "include_descendants");
      match kind.value
      case UserRoleKind => UserRoleRule(site, rule, value)
      case TaxonomyKind => TaxonomyRule(site, rule, value, children, descendants)
      case PostTypeKind => PostTypeRule(site, value)
      case ScheduleKind => ScheduleRule(rule)
      case UrlParamKind => UrlParamRule(rule)
      case DeviceKind => DeviceOf(value)
      case FlagKindOf(f) => Some(Flag(f, value))
      case _ =>
        ValueIdFits(value);
        IdRule(kind.value, ValueId(value), children, descendants)
  }

  /** A kept rule of a hierarchical kind carries the two options as posted. */
  lemma SanitizeRuleOptions(site: Site, rule: Json)
    ensures var r := SanitizeRule(site, rule);
      r.Some? && r.value.HasHierarchy() ==>
        r.value.includeChildren == BoolField(rule, "include_children") &&
        r.value.includeDescendants == BoolField(rule, "include_descendants")
  {
    var kind := RuleKind(rule);
    if kind.Some? {
      var value := RuleValue(rule);
      var children := BoolField(rule, "include_children");
      var descendants := BoolField(rule, "include_descendants");
      match kind.value
      case UserRoleKind =>
      case TaxonomyKind =>
      case PostTypeKind =>
      case ScheduleKind =>
      case UrlParamKind =>
      case DeviceKind =>
      case FlagKindOf(f) =>
      case _ =>
        ValueIdFits(value);
        assert SanitizeRule(site, rule) == IdRule(kind.value, ValueId(value), children, descendants);
    }
  }

  // ---------------------------------------------------------------- the whole configuration

  /** What one rule adds to the sanitized list: itself, sanitized, or nothing. */
  function RuleOutput(site: Site, rule: Json): (r: seq<Rule>)
    ensures |r| <= 1
  {
    var sanitized := SanitizeRule(site, rule);
    if sanitized.Some? then [sanitized.value] else []
  }

  function RuleStep(site: Site): Json -> seq<Rule>
  {
    rule => RuleOutput(site, rule)
  }

  predicate WellFormedConfig(site: Site, c: Config)
  {
    |c.rules| <= MaxRules && forall i :: 0 <= i < |c.rules| ==> WellFormed(site, c.rules[i])
  }

  /** The configuration `sanitize_visibility_data` builds from an array. */
  function SanitizeConfig(site: Site, data: Json): (c: Config)
    ensures WellFormedConfig(site, c)
    ensures c.action == Hide <==> Field(data, "action") == JStr("hide")
    ensures c.matchAll == BoolField(data, "match_all")
  {
    var rules := Field(data, "rules");
    var kept :=
      if !IsEmpty(rules) && IsArray(rules) then Take(Collect(RuleStep(site), Elements(rules)), MaxRules) else [];
    SanitizedRulesWellFormed(site, Elements(rules));
    Config(if Field(data, "action") == JStr("hide") then Hide else Show, BoolField(data, "match_all"), kept)
  }

  lemma SanitizedRulesWellFormed(site: Site, items: seq<Json>)
    ensures forall r :: r in Collect(RuleStep(site), items) ==> WellFormed(site, r)
  {
    CollectAll(RuleStep(site), items, r => WellFormed(site, r));
  }

  /** The array `sanitize_visibility_data` returns: `[]` for anything but an array. */
  function Sanitize(site: Site, data: Json): Json
  {
    if IsArray(data) then EncodeConfig(SanitizeConfig(site, data)) else JList([])
  }

  /** `sanitize_visibility_data`. */
  method SanitizeVisibilityData(site: Site, data: Json) returns (result: Json)
    ensures result == Sanitize(site, data)
  {
    if !IsArray(data) {
      return JList([]);
    }
    var validRoles := GetRoleSlugs(site);
    var kept: seq<Rule> := [];
    var rulesField := Field(data, "rules");
    if !IsEmpty(rulesField) && IsArray(rulesField) {
      kept := SanitizeRules(site, validRoles, Elements(rulesField));
    }
    var action := if Field(data, "action") == JStr("hide") then Hide else Show;
    result := EncodeConfig(Config(action, BoolField(data, "match_all"), kept));
  }

  /** The rule loop of `sanitize_visibility_data`, which stops once 50 rules are kept. */
  method SanitizeRules(site: Site, validRoles: seq<string>, items: seq<Json>) returns (kept: seq<Rule>)
    requires validRoles == RoleSlugs(site)
    ensures kept == Take(Collect(RuleStep(site), items), MaxRules)
  {
    kept := [];
    var i := 0;
    while i < |items|
      invariant i <= |items|
      invariant kept == Collect(RuleStep(site), items[..i])
      invariant |kept| <= MaxRules
    {
      if |kept| >= MaxRules {
        break;
      }
      CollectStep(RuleStep(site), items, i);
      var sanitized := SanitizeOneRule(site, validRoles, items[i]);
      if sanitized.Some? {
        kept := kept + [sanitized.value];
      }
      i := i + 1;
    }
    CollectPrefix(RuleStep(site), items, i);
    if i < |items| {
      TakeOfLongPrefix(kept, Collect(RuleStep(site), items[i..]), MaxRules);
    } else {
      assert items[..i] == items;
    }
  }

  /** One pass of the rule loop; role rules select their roles with the loop of `CollectRoles`. */
  method SanitizeOneRule(site: Site, validRoles: seq<string>, rule: Json) returns (sanitized: Option<Rule>)
    requires validRoles == RoleSlugs(site)
    ensures sanitized == SanitizeRule(site, rule)
  {
    var kind := RuleKind(rule);
    if kind == Some(UserRoleKind) {
      var roles := CollectRoles(validRoles, RoleCandidates(rule, RuleValue(rule)));
      sanitized := if roles == [] then None else Some(UserRole(roles));
    } else {
      sanitized := SanitizeRule(site, rule);
    }
  }

  // ---------------------------------------------------------------- stored data is a fixed point

  lemma RuleKindOfEncode(r: Rule)
    ensures RuleKind(Encode(r)) == Some(r.Kind())
  {
    var name := KindName(r.Kind());
    EncodeFields(r);
    var t := Field(Encode(r), "type");
    assert t == JStr(name);
    KindNameIsKey(r.Kind());
    SanitizeKeyOfKey(name);
    assert SanitizeKey(ToStr(t)) == name;
    KindNameRoundTrip(r.Kind());
  }

  lemma RuleValueOfEncode(r: Rule)
    requires IsCleanText(r.Value()) && |r.Value()| <= MaxValueLength
    ensures RuleValue(Encode(r)) == r.Value()
  {
    EncodeFields(r);
    SanitizeTextFieldOfClean(r.Value());
  }

  /** The value a well-formed rule stores is clean and within the cap. */
  lemma StoredValueClean(site: Site, r: Rule)
    requires WellFormed(site, r)
    ensures IsCleanText(r.Value()) && |r.Value()| <= MaxValueLength
  {
    var v := r.Value();
    if r.PostType? {
      KeysAreClean(v);
    } else if r.DeviceRule? {
      assert forall i :: 0 <= i < |v| ==> 'a' <= v[i] <= 'z';
      KeysAreClean(v);
    } else if r.HasHierarchy() || r.Tag? || r.Author? {
      KeysAreClean(v);
    }
  }

  /** Reading back the id a stored rule printed gives the id. */
  lemma ValueIdOfNatToString(id: nat)
    ensures ValueId(NatToString(id)) == id
  {
    LeadingIntOfNatToString(id);
  }

  lemma SelectedRolesOfStored(site: Site, roles: seq<string>)
    requires WellFormed(site, UserRole(roles))
    ensures SelectedRoles(RoleSlugs(site), StringList(roles)) == roles
  {
    var valid := RoleSlugs(site);
    var candidates := StringList(roles);
    forall c | c in candidates
      ensures RoleStep(valid)(c) == [c.s]
    {
      var i :| 0 <= i < |candidates| && candidates[i] == c;
      assert roles[i] in valid;
      SanitizeKeyOfKey(roles[i]);
    }
    CollectIdentity(RoleStep(valid), candidates, (c: Json) => if c.JStr? then c.s else "");
    var all := Collect(RoleStep(valid), candidates);
    assert all == roles;
    DedupOfDistinct(roles);
  }

  /** The members every kind shares read back from a stored rule. */
  lemma StoredCommonFields(site: Site, r: Rule)
    requires WellFormed(site, r)
    ensures RuleKind(Encode(r)) == Some(r.Kind())
    ensures RuleValue(Encode(r)) == r.Value()
    ensures BoolField(Encode(r), "include_children") == r.Children()
    ensures BoolField(Encode(r), "include_descendants") == r.Descendants()
  {
    EncodeFields(r);
    RuleKindOfEncode(r);
    StoredValueClean(site, r);
    RuleValueOfEncode(r);
  }

  lemma SanitizeEncodedIdRule(site: Site, r: Rule)
    requires WellFormed(site, r)
    requires r.Page? || r.Category? || r.Tag? || r.Author? || r.WooProductCat?
    ensures SanitizeRule(site, Encode(r)) == Some(r)
  {
    StoredCommonFields(site, r);
    ValueIdOfNatToString(r.id);
    assert IdRule(r.Kind(), ValueId(r.Value()), r.Children(), r.Descendants()) == Some(r);
  }

  lemma SanitizeEncodedTaxonomyRule(site: Site, r: Rule)
    requires WellFormed(site, r) && r.Taxonomy?
    ensures SanitizeRule(site, Encode(r)) == Some(r)
  {
    StoredCommonFields(site, r);
    EncodeKindFields(r);
    ValueIdOfNatToString(r.id);
    SanitizeKeyOfKey(r.taxonomy);
    assert TaxonomyRule(site, Encode(r), r.Value(), r.Children(), r.Descendants()) == Some(r);
  }

  lemma SanitizeEncodedPostTypeRule(site: Site, r: Rule)
    requires WellFormed(site, r) && r.PostType?
    ensures SanitizeRule(site, Encode(r)) == Some(r)
  {
    StoredCommonFields(site, r);
    SanitizeKeyOfKey(r.slug);
    assert PostTypeRule(site, r.Value()) == Some(r);
  }

  lemma SanitizeEncodedUserRoleRule(site: Site, r: Rule)
    requires WellFormed(site, r) && r.UserRole?
    ensures SanitizeRule(site, Encode(r)) == Some(r)
  {
    StoredCommonFields(site, r);
    EncodeKindFields(r);
    assert RoleCandidates(Encode(r), r.Value()) == StringList(r.roles);
    SelectedRolesOfStored(site, r.roles);
    assert UserRoleRule(site, Encode(r), r.Value()) == Some(r);
  }

  lemma SanitizeEncodedScheduleRule(site: Site, r: Rule)
    requires WellFormed(site, r) && r.Schedule?
    ensures SanitizeRule(site, Encode(r)) == Some(r)
  {
    StoredCommonFields(site, r);
    EncodeKindFields(r);
    StoredDateField(Encode(r), "start_date", r.startDate);
    StoredDateField(Encode(r), "end_date", r.endDate);
    assert ScheduleRule(Encode(r)) == Some(r);
  }

  lemma StoredDateField(rule: Json, key: string, date: string)
    requires Get(rule, key) == Some(JStr(date))
    requires date == "" || IsDate(date)
    ensures DateField(rule, key) == date
  {
    StoredDate(date);
  }

  lemma SanitizeEncodedUrlParamRule(site: Site, r: Rule)
    requires WellFormed(site, r) && r.UrlParam?
    ensures SanitizeRule(site, Encode(r)) == Some(r)
  {
    StoredCommonFields(site, r);
    EncodeKindFields(r);
    SanitizeTextFieldOfClean(r.paramName);
    SanitizeTextFieldOfClean(r.paramValue);
    assert UrlParamRule(Encode(r)) == Some(r);
  }

  lemma SanitizeEncodedDeviceRule(site: Site, r: Rule)
    requires WellFormed(site, r) && r.DeviceRule?
    ensures SanitizeRule(site, Encode(r)) == Some(r)
  {
    StoredCommonFields(site, r);
    SanitizeDeviceRule(site, Encode(r));
    DeviceNamesAreKeys();
    assert DeviceOf(r.Value()) == Some(r);
  }

  lemma SanitizeDeviceRule(site: Site, rule: Json)
    requires RuleKind(rule) == Some(DeviceKind)
    ensures SanitizeRule(site, rule) == DeviceOf(RuleValue(rule))
  {
  }

  lemma DeviceNamesAreKeys()
    ensures SanitizeKey("mobile") == "mobile" && SanitizeKey("desktop") == "desktop"
  {
    var m := "mobile";
    var d := "desktop";
    assert forall i :: 0 <= i < |m| ==> 'a' <= m[i] <= 'z';
    assert forall i :: 0 <= i < |d| ==> 'a' <= d[i] <= 'z';
    SanitizeKeyOfKey(m);
    SanitizeKeyOfKey(d);
  }

  /** Sanitizing the array stored for a well-formed rule gives the rule back. */
  lemma SanitizeEncodedRule(site: Site, r: Rule)
    requires WellFormed(site, r)
    ensures SanitizeRule(site, Encode(r)) == Some(r)
  {
    if r.Page? || r.Category? || r.Tag? || r.Author? || r.WooProductCat? {
      SanitizeEncodedIdRule(site, r);
    } else if r.Taxonomy? {
      SanitizeEncodedTaxonomyRule(site, r);
    } else if r.PostType? {
      SanitizeEncodedPostTypeRule(site, r);
    } else if r.UserRole? {
      SanitizeEncodedUserRoleRule(site, r);
    } else if r.Schedule? {
      SanitizeEncodedScheduleRule(site, r);
    } else if r.UrlParam? {
      SanitizeEncodedUrlParamRule(site, r);
    } else if r.DeviceRule? {
      SanitizeEncodedDeviceRule(site, r);
    } else {
      StoredCommonFields(site, r);
    }
  }

  /** A stored date (empty or `YYYY-MM-DD`) passes the date check unchanged. */
  lemma StoredDate(s: string)
    requires s == "" || IsDate(s)
    ensures IsCleanText(s) && SanitizeTextField(s) == s
    ensures s != "" ==> MatchesDatePattern(s)
  {
    assert forall i :: 0 <= i < |s| ==> IsDigit(s[i]) || s[i] == '-';
    SanitizeTextFieldOfClean(s);
  }

  lemma RuleStepOfStored(site: Site, r: Rule)
    requires WellFormed(site, r)
    ensures RuleStep(site)(Encode(r)) == [r]
  {
    SanitizeEncodedRule(site, r);
  }

  /** Every rule of the list is well-formed. */
  predicate AllWellFormed(site: Site, rules: seq<Rule>)
  {
    forall i :: 0 <= i < |rules| ==> WellFormed(site, rules[i])
  }

  /** The rule loop over a stored rule list gives the list back. */
  lemma CollectEncodedRules(site: Site, rules: seq<Rule>)
    requires AllWellFormed(site, rules)
    ensures Collect(RuleStep(site), EncodeRules(rules)) == rules
  {
    var items := EncodeRules(rules);
    forall i | 0 <= i < |items|
      ensures RuleStep(site)(items[i]) == [rules[i]]
    {
      RuleStepOfStored(site, rules[i]);
    }
    CollectEach(RuleStep(site), items, rules);
  }

  /** Sanitizing a stored configuration gives the same configuration back. */
  lemma SanitizeEncodedConfig(site: Site, c: Config)
    requires WellFormedConfig(site, c)
    ensures SanitizeConfig(site, EncodeConfig(c)) == c
  {
    var data := EncodeConfig(c);
    EncodeConfigFields(c);
    assert BoolField(data, "match_all") == c.matchAll;
    if |c.rules| > 0 {
      assert AllWellFormed(site, c.rules);
      CollectEncodedRules(site, c.rules);
      assert MaxRules >= |c.rules|;
    }
    SanitizesTo(site, data, c);
  }

  /** Any array whose three fields hold those of `c`, with rules that sanitize to themselves, gives `c`. */
  lemma SanitizesTo(site: Site, data: Json, c: Config)
    requires Field(data, "action") == JStr(if c.action == Hide then "hide" else "show")
    requires BoolField(data, "match_all") == c.matchAll
    requires Field(data, "rules") == JList(EncodeRules(c.rules))
    requires Take(Collect(RuleStep(site), EncodeRules(c.rules)), MaxRules) == c.rules
    ensures SanitizeConfig(site, data) == c
  {
    assert "show" != "hide";
  }

  /**
   * Saving what was saved changes nothing. The one exception is the empty
   * array stored for input that is not an array: saving that again stores
   * the default configuration.
   */
  lemma SanitizeIdempotent(site: Site, data: Json)
    ensures IsArray(data) ==> Sanitize(site, Sanitize(site, data)) == Sanitize(site, data)
    ensures !IsArray(data) ==> Sanitize(site, Sanitize(site, data)) == EncodeConfig(Config(Show, false, []))
  {
    if IsArray(data) {
      SanitizeEncodedConfig(site, SanitizeConfig(site, data));
    } else {
      assert Field(JList([]), "action") == JNull;
    }
  }

  // ---------------------------------------------------------------- option indentation

  /**
   * The parent walk that indents a category option: from `p`, follow parent
   * links (`parents` maps each listed term to its parent) until the id is 0,
   * unlisted, or already visited.
   */
  function ParentChain(parents: map<int, int>, p: int, seen: set<int>): (r: seq<int>)
    requires seen <= parents.Keys
    ensures Distinct(r)
    ensures forall x :: x in r ==> x > 0 && x in parents && x !in seen
    ensures forall i :: 0 <= i < |r| ==> r[i] in parents
    ensures |r| > 0 ==> r[0] == p
    ensures forall i :: 0 <= i < |r| - 1 ==> r[i + 1] == parents[r[i]]
    decreases |parents.Keys - seen|
  {
    if p > 0 && p in parents && p !in seen then
      assert parents.Keys - (seen + {p}) < parents.Keys - seen;
      [p] + ParentChain(parents, parents[p], seen + {p})
    else []
  }

  /** The `$seen` loop of `get_categories` and `get_woo_product_categories`. */
  method TermDepth(parents: map<int, int>, start: int) returns (depth: nat)
    ensures depth == |ParentChain(parents, start, {})|
    ensures depth <= |parents|
  {
    depth := 0;
    var parent := start;
    var seen: set<int> := {};
    while parent > 0 && parent in parents && parent !in seen
      invariant seen <= parents.Keys
      invariant depth == |seen|
      invariant |ParentChain(parents, start, {})| == depth + |ParentChain(parents, parent, seen)|
      decreases |parents.Keys - seen|
    {
      assert parents.Keys - (seen + {parent}) < parents.Keys - seen;
      seen := seen + {parent};
      depth := depth + 1;
      parent := parents[parent];
    }
    SubsetCardinality(seen, parents.Keys);
  }
}
