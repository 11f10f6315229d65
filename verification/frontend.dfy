/**
 * The display-time side: `filter_widget_display` decides, for the request
 * being rendered, whether a widget is shown, by evaluating the stored rules
 * against WordPress's conditional tags. Rules are read as stored (any array),
 * so every coercion the evaluators apply to a member is modelled.
 */
module Frontend {
  import opened Values
  import opened Php
  import opened Rules

  /** What `get_queried_object()` returns for the current request. */
  datatype Queried =
    | NoObject
    | TermObject(termId: int, taxonomy: string, parent: int)
    | PostObject(postId: int, author: int)
    | UserObject(userId: int)

  /** The request being rendered: WordPress's conditional tags, the visitor, the date and the query string. */
  datatype Request = Request(
    isFrontPage: bool, isHome: bool, isArchive: bool, isSearch: bool, is404: bool,
    isSingle: bool, isSingular: bool, isPage: bool, isCategory: bool, isTag: bool,
    taxArchive: Option<string>,       // is_tax($t) holds for this taxonomy only
    authorArchive: Option<int>,       // is_author($id) holds for this user only
    singularPostType: string,         // is_singular($pt) holds when isSingular and $pt is this
    postTypeArchive: Option<string>,  // is_post_type_archive($pt) holds for this post type only
    queried: Queried,
    // WooCommerce tags, each false when its function does not exist
    isShop: bool, isCart: bool, isCheckout: bool, isAccountPage: bool,
    isProductCategory: bool, isProduct: bool,
    loggedIn: bool,
    userId: int,                      // the current user's ID, 0 when there is none
    userRoles: seq<string>,
    today: string,                    // current_time('Y-m-d')
    query: map<string, string>,       // $_GET after wp_unslash
    isMobile: bool)                   // wp_is_mobile()

  /** The site's content as the evaluators query it. */
  datatype Content = Content(
    postTypes: set<string>,                    // post_type_exists
    taxonomies: set<string>,                   // taxonomy_exists
    postAncestors: map<int, seq<int>>,         // get_post_ancestors
    postParent: map<int, int>,                 // get_post($id)->post_parent, for posts that exist
    termAncestors: map<(int, string), seq<int>>,  // get_ancestors($id, $taxonomy)
    termParent: map<(int, string), int>,       // get_term / get_category ->parent, for terms that exist
    postTerms: map<(int, string), seq<int>>)   // term ids of a post in a taxonomy ('category', 'post_tag', ...)

  function QueriedId(req: Request): int
  {
    match req.queried
    case NoObject => 0
    case TermObject(id, _, _) => id
    case PostObject(id, _) => id
    case UserObject(id) => id
  }

  function PostAncestors(c: Content, id: int): seq<int>
  {
    if id in c.postAncestors then c.postAncestors[id] else []
  }

  function TermAncestors(c: Content, id: int, taxonomy: string): seq<int>
  {
    if (id, taxonomy) in c.termAncestors then c.termAncestors[(id, taxonomy)] else []
  }

  function PostTerms(c: Content, postId: int, taxonomy: string): seq<int>
  {
    if (postId, taxonomy) in c.postTerms then c.postTerms[(postId, taxonomy)] else []
  }

  /** `array_map('absint', $ids)`. */
  function AbsAll(ids: seq<int>): (r: seq<nat>)
    ensures |r| == |ids| && forall i :: 0 <= i < |ids| ==> r[i] == Abs(ids[i])
  {
    seq(|ids|, i requires 0 <= i < |ids| => Abs(ids[i]))
  }

  // ---------------------------------------------------------------- reading a stored rule

  /** The rules `filter_widget_display` keeps: arrays whose `type` is one of the 23 names, compared strictly. */
  predicate Supported(rule: Json)
  {
    IsArray(rule) && !IsEmpty(Field(rule, "type")) && Field(rule, "type").JStr? &&
    Field(rule, "type").s in AllowedTypes
  }

  /** `isset($rule[$key]) ? $rule[$key] : ''`. */
  function Member(rule: Json, key: string): (r: Json)
    ensures r != JNull
  {
    if Isset(rule, key) then Field(rule, key) else JStr("")
  }

  // ---------------------------------------------------------------- one evaluator per kind

  /** `evaluate_page_rule`. */
  predicate PageHolds(req: Request, c: Content, value: Json, children: bool, descendants: bool)
  {
    var id := AbsInt(value);
    if id == 0 || !req.isPage then false
    else
      var current := QueriedId(req);
      if current == id then true
      else if descendants then id in AbsAll(PostAncestors(c, current))
      else if children then current in c.postParent && Abs(c.postParent[current]) == id
      else false
  }

  /** The archive branch of `evaluate_category_rule`: a verdict, or None when it falls through to the post branch. */
  function CategoryArchive(req: Request, c: Content, id: nat, children: bool, descendants: bool): Option<bool>
  {
    if !req.isCategory then None
    else
      match req.queried
      case TermObject(termId, _, parent) =>
        if termId == id then Some(true)
        else if descendants then Some(id in AbsAll(TermAncestors(c, termId, "category")))
        else if children then Some(Abs(parent) == id)
        else None
      case _ => Some(false)
  }

  /** A category of the viewed post that is a child (or, with descendants, a descendant) of category `id`. */
  predicate CategoryLinked(c: Content, id: nat, postCat: nat, children: bool, descendants: bool)
  {
    (descendants && id in AbsAll(TermAncestors(c, postCat, "category"))) ||
    (children && (postCat, "category") in c.termParent && Abs(c.termParent[(postCat, "category")]) == id)
  }

  /** The single-post branch of `evaluate_category_rule`. */
  predicate CategoryPostHolds(req: Request, c: Content, id: nat, children: bool, descendants: bool)
  {
    if !req.isSingle || QueriedId(req) == 0 then false
    else
      var cats := AbsAll(PostTerms(c, QueriedId(req), "category"));
      if |cats| == 0 then false
      else
        id in cats ||
        ((children || descendants) && exists k :: 0 <= k < |cats| && CategoryLinked(c, id, cats[k], children, descendants))
  }

  /** `evaluate_category_rule`. */
  predicate CategoryHolds(req: Request, c: Content, value: Json, children: bool, descendants: bool)
  {
    var id := AbsInt(value);
    id != 0 && CategoryIdHolds(req, c, id, children, descendants)
  }

  /** `evaluate_category_rule` after `absint`: the archive verdict, else the single-post one. */
  predicate CategoryIdHolds(req: Request, c: Content, id: nat, children: bool, descendants: bool)
  {
    var archive := CategoryArchive(req, c, id, children, descendants);
    if archive.Some? then archive.value else CategoryPostHolds(req, c, id, children, descendants)
  }

  /** `evaluate_tag_rule`. */
  predicate TagHolds(req: Request, c: Content, value: Json)
  {
    var id := AbsInt(value);
    id != 0 &&
    ((req.isTag && req.queried.TermObject? && req.queried.termId == id) ||
     (req.isSingle && QueriedId(req) != 0 && id in PostTerms(c, QueriedId(req), "post_tag")))
  }

  /** `evaluate_author_rule`. */
  predicate AuthorHolds(req: Request, value: Json)
  {
    var id := AbsInt(value);
    id != 0 &&
    (req.authorArchive == Some(id) ||
     (req.isSingular && req.queried.PostObject? && Abs(req.queried.author) == id))
  }

  /** `evaluate_post_type_rule`. */
  predicate PostTypeHolds(req: Request, c: Content, value: Json)
  {
    value.JStr? && value.s != "" && value.s in c.postTypes &&
    ((req.isSingular && req.singularPostType == value.s) || req.postTypeArchive == Some(value.s))
  }

  /** The ancestors `get_term_ancestors` returns: none for a zero id or an empty taxonomy key. */
  function CachedAncestors(c: Content, termId: int, taxonomy: string): seq<int>
  {
    var id := Abs(termId);
    var key := SanitizeKey(taxonomy);
    if id == 0 || key == "" then [] else TermAncestors(c, id, key)
  }

  /** The archive branch shared by `evaluate_taxonomy_rule` and `evaluate_woo_product_cat_rule`. */
  function TermArchive(req: Request, c: Content, taxonomy: string, id: nat, children: bool, descendants: bool, onArchive: bool): Option<bool>
  {
    if !onArchive then None
    else
      match req.queried
      case TermObject(termId, t, parent) =>
        if t != taxonomy then Some(false)
        else if termId == id then Some(true)
        else if descendants && id in CachedAncestors(c, termId, taxonomy) then Some(true)
        else if children && parent == id then Some(true)
        else None
      case _ => Some(false)
  }

  /** A term of the viewed post that is a child (or, with descendants, a descendant) of term `id`. */
  predicate TermLinked(c: Content, taxonomy: string, id: nat, postTerm: int, children: bool, descendants: bool)
  {
    (descendants && id in CachedAncestors(c, postTerm, taxonomy)) ||
    (children && (postTerm, taxonomy) in c.termParent && c.termParent[(postTerm, taxonomy)] == id)
  }

  /** The post branch shared by the two term evaluators. */
  predicate TermPostHolds(req: Request, c: Content, taxonomy: string, id: nat, children: bool, descendants: bool, onPost: bool)
  {
    if !onPost || QueriedId(req) == 0 then false
    else
      var terms := PostTerms(c, QueriedId(req), taxonomy);
      if |terms| == 0 then false
      else
        id in terms ||
        ((children || descendants) && exists k :: 0 <= k < |terms| && TermLinked(c, taxonomy, id, terms[k], children, descendants))
  }

  predicate TermRuleHolds(req: Request, c: Content, taxonomy: string, id: nat, children: bool, descendants: bool, onArchive: bool, onPost: bool)
  {
    var archive := TermArchive(req, c, taxonomy, id, children, descendants, onArchive);
    if archive.Some? then archive.value else TermPostHolds(req, c, taxonomy, id, children, descendants, onPost)
  }

  /** `evaluate_taxonomy_rule`, for the already sanitized taxonomy key. */
  predicate TaxonomyHolds(req: Request, c: Content, taxonomy: string, value: Json, children: bool, descendants: bool)
  {
    taxonomy != "" && taxonomy in c.taxonomies && AbsInt(value) != 0 &&
    TermRuleHolds(req, c, taxonomy, AbsInt(value), children, descendants, req.taxArchive == Some(taxonomy), req.isSingular)
  }

  /** `evaluate_woo_product_cat_rule`. */
  predicate WooProductCatHolds(req: Request, c: Content, value: Json, children: bool, descendants: bool)
  {
    AbsInt(value) != 0 && "product_cat" in c.taxonomies &&
    TermRuleHolds(req, c, "product_cat", AbsInt(value), children, descendants, req.isProductCategory, req.isProduct)
  }

  /** A selected role that names one of the current user's roles. */
  predicate RoleMatches(req: Request, selected: Json)
  {
    IsScalar(selected) &&
    var key := SanitizeKey(ToStr(selected));
    key != "" && key in UserRoleKeys(req)
  }

  function UserRoleKeys(req: Request): seq<string>
  {
    seq(|req.userRoles|, i requires 0 <= i < |req.userRoles| => SanitizeKey(req.userRoles[i]))
  }

  /** `evaluate_user_role_rule`: a logged-in user holding any selected role. */
  predicate UserRoleHolds(req: Request, selected: seq<Json>)
  {
    req.loggedIn && |selected| > 0 && req.userId != 0 &&
    exists k :: 0 <= k < |selected| && RoleMatches(req, selected[k])
  }

  /** Byte-wise `strcmp` sign. */
  function LexCompare(a: string, b: string): int
  {
    if LexLess(a, b) then -1 else if a == b then 0 else 1
  }

  /**
   * PHP 8's `$today <=> $v` for the date string `today` (never numeric, as
   * it holds dashes): strings compare byte-wise, an integer as its decimal
   * string, a boolean against the truth of `today`, and an array is greater.
   */
  function CompareToday(today: string, v: Json): int
  {
    match v
    case JStr(s) => LexCompare(today, s)
    case JInt(_) => LexCompare(today, ToStr(v))
    case JNull => LexCompare(today, "")
    case JBool(b) =>
      var t := today != "" && today != "0";
      if t == b then 0 else if b then -1 else 1
    case JList(_) => -1
    case JObject(_) => -1
  }

  /** `evaluate_schedule_rule`. */
  predicate ScheduleHolds(today: string, startDate: Json, endDate: Json)
  {
    !(startDate != JStr("") && CompareToday(today, startDate) < 0) &&
    !(endDate != JStr("") && CompareToday(today, endDate) > 0) &&
    !(startDate == JStr("") && endDate == JStr(""))
  }

  /** `evaluate_url_param_rule`. */
  predicate UrlParamHolds(req: Request, name: Json, expected: Json)
  {
    name.JStr? && name.s != "" &&
    var key := SanitizeTextField(name.s);
    key in req.query && (expected == JStr("") || expected == JStr(SanitizeTextField(req.query[key])))
  }

  /** PHP 8's loose `$v == $s` for a non-numeric string `s`, as a `switch` compares. */
  predicate LooseEquals(v: Json, s: string)
  {
    match v
    case JStr(t) => t == s
    case JInt(_) => ToStr(v) == s
    case JBool(b) => b == (s != "" && s != "0")
    case JNull => s == ""
    case JList(_) => false
    case JObject(_) => false
  }

  /** `evaluate_device_rule`. */
  predicate DeviceHolds(req: Request, device: Json)
  {
    if LooseEquals(device, "mobile") then req.isMobile
    else if LooseEquals(device, "desktop") then !req.isMobile
    else false
  }

  /** The kinds without a payload, each one conditional tag. */
  predicate FlagHolds(req: Request, f: FlagKind)
  {
    match f
    case FrontPage => req.isFrontPage
    case Blog => req.isHome
    case Archive => req.isArchive
    case Search => req.isSearch
    case NotFound => req.is404
    case Single => req.isSingle
    case LoggedIn => req.loggedIn
    case LoggedOut => !req.loggedIn
    case WooShop => req.isShop
    case WooCart => req.isCart
    case WooCheckout => req.isCheckout
    case WooAccount => req.isAccountPage
  }

  function SupportedKind(rule: Json): Kind
    requires Supported(rule)
  {
    AllowedNamesAreKinds(Field(rule, "type").s);
    KindNamed(Field(rule, "type").s).value
  }

  /** `$taxonomy` as `evaluate_rule` reads it. */
  function RuleTaxonomy(rule: Json): (r: string)
    ensures IsKey(r)
  {
    if Isset(rule, "taxonomy") then SanitizeKey(ToStr(Field(rule, "taxonomy"))) else ""
  }

  /** `$values` as `evaluate_rule` reads it. */
  function RuleValues(rule: Json): seq<Json>
  {
    if IsArray(Field(rule, "values")) then Elements(Field(rule, "values")) else []
  }

  /** `evaluate_rule`: whether a supported rule holds for the request. */
  predicate Holds(req: Request, c: Content, rule: Json)
    requires Supported(rule)
  {
    var value := Member(rule, "value");
    var children := BoolField(rule, "include_children");
    var descendants := BoolField(rule, "include_descendants");
    match SupportedKind(rule)
    case PageKind => PageHolds(req, c, value, children, descendants)
    case CategoryKind => CategoryHolds(req, c, value, children, descendants)
    case TagKind => TagHolds(req, c, value)
    case AuthorKind => AuthorHolds(req, value)
    case PostTypeKind => PostTypeHolds(req, c, value)
    case TaxonomyKind => TaxonomyHolds(req, c, RuleTaxonomy(rule), value, children, descendants)
    case UserRoleKind => UserRoleHolds(req, RuleValues(rule))
    case ScheduleKind => ScheduleHolds(req.today, Member(rule, "start_date"), Member(rule, "end_date"))
    case UrlParamKind => UrlParamHolds(req, Member(rule, "param_name"), Member(rule, "param_value"))
    case DeviceKind => DeviceHolds(req, value)
    case WooProductCatKind => WooProductCatHolds(req, c, value, children, descendants)
    case FlagKindOf(f) => FlagHolds(req, f)
  }

  // ---------------------------------------------------------------- combining the results

  /** The supported rules of a list, in order (`array_values(array_filter(...))`). */
  function SupportedRules(rules: seq<Json>): (r: seq<Json>)
    ensures |r| <= |rules|
    ensures forall x :: x in r <==> x in rules && Supported(x)
  {
    Filter(Supported, rules)
  }

  /** `$match_all ? !in_array(false, $results, true) : in_array(true, $results, true)`. */
  predicate ConditionsMet(matchAll: bool, results: seq<bool>)
  {
    if matchAll then false !in results else true in results
  }

  /** All of the results for match-all, any one of them otherwise. */
  lemma ConditionsMetMeaning(matchAll: bool, results: seq<bool>)
    ensures matchAll ==> (ConditionsMet(matchAll, results) <==> forall i :: 0 <= i < |results| ==> results[i])
    ensures !matchAll ==> (ConditionsMet(matchAll, results) <==> exists i :: 0 <= i < |results| && results[i])
  {
    if matchAll && !ConditionsMet(matchAll, results) {
      var i :| 0 <= i < |results| && results[i] == false;
    }
    if !matchAll && ConditionsMet(matchAll, results) {
      var i :| 0 <= i < |results| && results[i] == true;
    }
  }

  /** `$action === 'show'`, with a missing action read as 'show'; any other action hides on a match. */
  predicate ShowsOnMatch(visibility: Json)
  {
    !Isset(visibility, "action") || Field(visibility, "action") == JStr("show")
  }

  /** The rules `filter_widget_display` evaluates for an instance. */
  function EvaluatedRules(instance: Json): (r: seq<Json>)
    ensures forall x :: x in r ==> Supported(x)
  {
    var rules := Field(Field(instance, "wvd_visibility"), "rules");
    SupportedRules(if IsArray(rules) then Elements(rules) else [])
  }

  function Results(req: Request, c: Content, rules: seq<Json>): (r: seq<bool>)
    requires forall x :: x in rules ==> Supported(x)
    ensures |r| == |rules| && forall i :: 0 <= i < |rules| ==> r[i] == Holds(req, c, rules[i])
  {
    seq(|rules|, i requires 0 <= i < |rules| => Holds(req, c, rules[i]))
  }

  /** Whether the widget is rendered: always when no rule applies, else as the action and the results decide. */
  predicate Shown(req: Request, c: Content, instance: Json)
  {
    var visibility := Field(instance, "wvd_visibility");
    var rules := EvaluatedRules(instance);
    !IsArray(instance) || IsEmpty(Field(visibility, "rules")) || |rules| == 0 ||
    ShowsOnMatch(visibility) == ConditionsMet(BoolField(visibility, "match_all"), Results(req, c, rules))
  }

  /** What `filter_widget_display` returns: the instance unchanged, or false to suppress the widget. */
  function Display(req: Request, c: Content, instance: Json): (r: Json)
    ensures Shown(req, c, instance) ==> r == instance
    ensures !Shown(req, c, instance) ==> r == JBool(false) && IsArray(instance)
  {
    if Shown(req, c, instance) then instance else JBool(false)
  }

  // ---------------------------------------------------------------- stored rules at display time

  /** Every rule `sanitize_visibility_data` stores passes the display-time filter, as the kind it was stored as. */
  lemma StoredRuleSupported(r: Rule)
    ensures Supported(Encode(r))
    ensures SupportedKind(Encode(r)) == r.Kind()
  {
    EncodeFields(r);
    KindNameRoundTrip(r.Kind());
  }

  /** Whether a stored rule holds for the request. */
  predicate StoredHolds(req: Request, c: Content, r: Rule)
  {
    StoredRuleSupported(r);
    Holds(req, c, Encode(r))
  }

  /** A stored rule without a payload is its conditional tag. */
  lemma StoredFlagRule(req: Request, c: Content, r: Rule)
    requires r.Flag?
    ensures StoredHolds(req, c, r) == FlagHolds(req, r.flag)
  {
    StoredRuleSupported(r);
  }

  /** Of a stored logged-in rule and a stored logged-out rule, exactly one holds. */
  lemma StoredLoginRulesComplement(req: Request, c: Content, loggedIn: Rule, loggedOut: Rule)
    requires loggedIn.Flag? && loggedIn.flag == LoggedIn
    requires loggedOut.Flag? && loggedOut.flag == LoggedOut
    ensures StoredHolds(req, c, loggedIn) != StoredHolds(req, c, loggedOut)
  {
    StoredFlagRule(req, c, loggedIn);
    StoredFlagRule(req, c, loggedOut);
  }

  /** `today > end` for a non-empty end string is exactly "end sorts before today". */
  lemma CompareTodayAfter(today: string, e: string)
    ensures CompareToday(today, JStr(e)) > 0 <==> LexLess(e, today)
  {
    LexLessTrichotomy(today, e);
    if LexLess(e, today) {
      LexLessAsymmetric(e, today);
      LexLessIrreflexive(e);
    }
  }

  /**
   * A stored schedule holds from its start date to its end date inclusive;
   * a missing bound is open, and a rule with neither bound never holds.
   */
  lemma StoredScheduleWindow(req: Request, c: Content, r: Rule)
    requires r.Schedule?
    ensures StoredHolds(req, c, r) <==>
      (r.startDate != "" || r.endDate != "") &&
      (r.startDate == "" || !LexLess(req.today, r.startDate)) &&
      (r.endDate == "" || !LexLess(r.endDate, req.today))
  {
    StoredRuleSupported(r);
    EncodeKindFields(r);
    assert Member(Encode(r), "start_date") == JStr(r.startDate);
    assert Member(Encode(r), "end_date") == JStr(r.endDate);
    CompareTodayAfter(req.today, r.endDate);
  }

  /** A stored device rule holds on phones for "mobile" and elsewhere for "desktop". */
  lemma StoredDeviceRule(req: Request, c: Content, r: Rule)
    requires r.DeviceRule?
    ensures StoredHolds(req, c, r) == (if r.device == Mobile then req.isMobile else !req.isMobile)
  {
    StoredRuleSupported(r);
    EncodeFields(r);
  }

  /**
   * The loose `switch` also takes `true` for "mobile" (the first case), while
   * `false`, a number or a list never matches.
   */
  lemma DeviceLooseComparison(req: Request, i: int, items: seq<Json>)
    ensures DeviceHolds(req, JBool(true)) == req.isMobile
    ensures !DeviceHolds(req, JBool(false))
    ensures !DeviceHolds(req, JInt(i))
    ensures !DeviceHolds(req, JList(items))
  {
    var t := ToStr(JInt(i));
    if i < 0 {
      assert t[0] == '-';
    } else {
      DigitsValueOfNatToString(i);
      assert IsDigit(t[0]);
    }
  }

  /** A stored id reads back through `absint`, and so do the two options. */
  lemma StoredIdRule(r: Rule)
    requires r.Page? || r.Category? || r.Tag? || r.Author? || r.Taxonomy? || r.WooProductCat?
    ensures AbsInt(Member(Encode(r), "value")) == r.id
    ensures BoolField(Encode(r), "include_children") == r.Children()
    ensures BoolField(Encode(r), "include_descendants") == r.Descendants()
  {
    EncodeFields(r);
    LeadingIntOfNatToString(r.id);
  }

  /** A stored page rule holds only on pages, and always on the page it names. */
  lemma StoredPageRule(req: Request, c: Content, r: Rule)
    requires r.Page?
    ensures StoredHolds(req, c, r) ==> req.isPage
    ensures req.isPage && QueriedId(req) == r.id && r.id > 0 ==> StoredHolds(req, c, r)
  {
    StoredRuleSupported(r);
    StoredIdRule(r);
  }

  /** A stored taxonomy rule is evaluated for its own taxonomy, term and options. */
  lemma StoredTaxonomyHolds(req: Request, c: Content, r: Rule)
    requires r.Taxonomy? && IsKey(r.taxonomy)
    ensures StoredHolds(req, c, r) ==
      TaxonomyHolds(req, c, r.taxonomy, JStr(NatToString(r.id)), r.includeChildren, r.includeDescendants)
  {
    var e := Encode(r);
    StoredRuleSupported(r);
    EncodeFields(r);
    EncodeKindFields(r);
    assert Member(e, "value") == JStr(NatToString(r.id));
    assert BoolField(e, "include_children") == r.includeChildren;
    assert BoolField(e, "include_descendants") == r.includeDescendants;
    SanitizeKeyOfKey(r.taxonomy);
    assert RuleTaxonomy(e) == r.taxonomy;
    HoldsAsTaxonomy(req, c, e);
  }

  /** `evaluate_rule` on a taxonomy rule calls `evaluate_taxonomy_rule` with the members it reads. */
  lemma HoldsAsTaxonomy(req: Request, c: Content, rule: Json)
    requires Supported(rule) && SupportedKind(rule) == TaxonomyKind
    ensures Holds(req, c, rule) == TaxonomyHolds(req, c, RuleTaxonomy(rule), Member(rule, "value"),
      BoolField(rule, "include_children"), BoolField(rule, "include_descendants"))
  {
  }

  /** A stored taxonomy rule needs its taxonomy to exist, and holds on the archive of the term it names. */
  lemma StoredTaxonomyRule(req: Request, c: Content, r: Rule)
    requires r.Taxonomy? && IsKey(r.taxonomy)
    ensures StoredHolds(req, c, r) ==> r.taxonomy != "" && r.taxonomy in c.taxonomies && r.id > 0
    ensures r.taxonomy != "" && r.taxonomy in c.taxonomies && r.id > 0 &&
            req.taxArchive == Some(r.taxonomy) && req.queried.TermObject? &&
            req.queried.taxonomy == r.taxonomy && req.queried.termId == r.id
            ==> StoredHolds(req, c, r)
  {
    StoredTaxonomyHolds(req, c, r);
    LeadingIntOfNatToString(r.id);
    assert AbsInt(JStr(NatToString(r.id))) == r.id;
    TaxonomyOwnArchive(req, c, r.taxonomy, JStr(NatToString(r.id)), r.includeChildren, r.includeDescendants);
  }

  /** A taxonomy rule needs an existing taxonomy and a non-zero term, and holds on that term's archive. */
  lemma TaxonomyOwnArchive(req: Request, c: Content, taxonomy: string, value: Json, children: bool, descendants: bool)
    ensures TaxonomyHolds(req, c, taxonomy, value, children, descendants) ==>
      taxonomy != "" && taxonomy in c.taxonomies && AbsInt(value) != 0
    ensures taxonomy != "" && taxonomy in c.taxonomies && AbsInt(value) != 0 &&
            req.taxArchive == Some(taxonomy) && req.queried.TermObject? &&
            req.queried.taxonomy == taxonomy && req.queried.termId == AbsInt(value)
            ==> TaxonomyHolds(req, c, taxonomy, value, children, descendants)
  {
  }

  /** A stored role rule holds for a logged-in user who has one of its roles. */
  lemma StoredUserRoleRule(req: Request, c: Content, r: Rule)
    requires r.UserRole? && forall i :: 0 <= i < |r.roles| ==> IsKey(r.roles[i]) && r.roles[i] != ""
    ensures StoredHolds(req, c, r) <==>
      req.loggedIn && req.userId != 0 && exists i :: 0 <= i < |r.roles| && r.roles[i] in UserRoleKeys(req)
  {
    StoredRuleSupported(r);
    EncodeKindFields(r);
    var selected := StringList(r.roles);
    assert RuleValues(Encode(r)) == selected;
    forall i | 0 <= i < |r.roles|
      ensures RoleMatches(req, selected[i]) <==> r.roles[i] in UserRoleKeys(req)
    {
      SanitizeKeyOfKey(r.roles[i]);
    }
  }

  /** A stored URL rule holds when the parameter is present and, if a value was stored, carries it. */
  lemma StoredUrlParamRule(req: Request, c: Content, r: Rule)
    requires r.UrlParam? && IsCleanText(r.paramName)
    ensures StoredHolds(req, c, r) <==>
      r.paramName != "" && r.paramName in req.query &&
      (r.paramValue == "" || SanitizeTextField(req.query[r.paramName]) == r.paramValue)
  {
    StoredRuleSupported(r);
    EncodeKindFields(r);
    SanitizeTextFieldOfClean(r.paramName);
    assert Member(Encode(r), "param_name") == JStr(r.paramName);
    assert Member(Encode(r), "param_value") == JStr(r.paramValue);
  }

  // ---------------------------------------------------------------- what the hierarchy options add

  /** Parent links that agree with the ancestor lists, as WordPress keeps them for pages. */
  predicate PostParentsAreAncestors(c: Content)
  {
    forall p :: p in c.postParent && c.postParent[p] != 0 ==> c.postParent[p] in PostAncestors(c, p)
  }

  /**
   * The same for categories, both for the terms the content knows and for
   * the category being viewed; and a request is never both a category
   * archive and a single post.
   */
  predicate CategoryParentsAreAncestors(req: Request, c: Content)
  {
    (forall t :: t in c.termParent && t.1 == "category" && c.termParent[t] != 0 ==>
      c.termParent[t] in TermAncestors(c, t.0, "category")) &&
    (req.isCategory && req.queried.TermObject? && req.queried.parent != 0 ==>
      req.queried.parent in TermAncestors(c, req.queried.termId, "category")) &&
    !(req.isCategory && req.isSingle)
  }

  lemma AbsAllHas(ids: seq<int>, x: int)
    requires x in ids
    ensures Abs(x) in AbsAll(ids)
  {
    var j :| 0 <= j < |ids| && ids[j] == x;
    assert AbsAll(ids)[j] == Abs(x);
  }

  /**
   * Without options a page rule matches that page alone, and either option
   * only adds pages. "Include descendants" replaces the parent test by the
   * ancestor list, so it covers the children wherever parents are ancestors.
   */
  lemma PageRuleScope(req: Request, c: Content, value: Json, children: bool, descendants: bool)
    ensures PageHolds(req, c, value, false, false) <==>
      req.isPage && AbsInt(value) != 0 && QueriedId(req) == AbsInt(value)
    ensures PageHolds(req, c, value, false, false) ==> PageHolds(req, c, value, children, descendants)
    ensures PostParentsAreAncestors(c) && PageHolds(req, c, value, true, false) ==>
      PageHolds(req, c, value, children, true)
  {
    var current := QueriedId(req);
    if PostParentsAreAncestors(c) && current in c.postParent && c.postParent[current] != 0 {
      AbsAllHas(PostAncestors(c, current), c.postParent[current]);
    }
  }

  /**
   * On consistent content the category options only add: without options a
   * rule matches the category's archive and its posts, children add child
   * categories, and descendants cover children.
   */
  lemma CategoryRuleScope(req: Request, c: Content, value: Json, children: bool, descendants: bool)
    requires CategoryParentsAreAncestors(req, c)
    ensures CategoryHolds(req, c, value, false, false) ==> CategoryHolds(req, c, value, children, descendants)
    ensures CategoryHolds(req, c, value, true, false) ==> CategoryHolds(req, c, value, children, true)
  {
    var id := AbsInt(value);
    if id != 0 {
      CategoryIdScope(req, c, id, children, descendants);
    }
  }

  lemma CategoryIdScope(req: Request, c: Content, id: nat, children: bool, descendants: bool)
    requires CategoryParentsAreAncestors(req, c) && id != 0
    ensures CategoryIdHolds(req, c, id, false, false) ==> CategoryIdHolds(req, c, id, children, descendants)
    ensures CategoryIdHolds(req, c, id, true, false) ==> CategoryIdHolds(req, c, id, children, true)
  {
    if req.isCategory && req.queried.TermObject? && req.queried.parent != 0 {
      AbsAllHas(TermAncestors(c, req.queried.termId, "category"), req.queried.parent);
    }
    if CategoryPostHolds(req, c, id, true, false) {
      var cats := AbsAll(PostTerms(c, QueriedId(req), "category"));
      if id !in cats {
        var k :| 0 <= k < |cats| && CategoryLinked(c, id, cats[k], true, false);
        AbsAllHas(TermAncestors(c, cats[k], "category"), c.termParent[(cats[k], "category")]);
        assert CategoryLinked(c, id, cats[k], children, true);
      }
    }
  }

  /** For taxonomy and product-category rules the two options only ever add matches. */
  lemma TermRuleOptionsWiden(req: Request, c: Content, taxonomy: string, id: nat, children: bool, descendants: bool,
                             onArchive: bool, onPost: bool)
    ensures TermRuleHolds(req, c, taxonomy, id, children, descendants, onArchive, onPost) ==>
      TermRuleHolds(req, c, taxonomy, id, true, descendants, onArchive, onPost) &&
      TermRuleHolds(req, c, taxonomy, id, children, true, onArchive, onPost)
  {
    if TermPostHolds(req, c, taxonomy, id, children, descendants, onPost) {
      var terms := PostTerms(c, QueriedId(req), taxonomy);
      if id !in terms {
        var k :| 0 <= k < |terms| && TermLinked(c, taxonomy, id, terms[k], children, descendants);
        assert TermLinked(c, taxonomy, id, terms[k], true, descendants);
        assert TermLinked(c, taxonomy, id, terms[k], children, true);
      }
    }
  }

  /** The stored rules met as `match_all` asks: every rule, or at least one. */
  predicate StoredConditionsMet(req: Request, c: Content, config: Config)
  {
    if config.matchAll then forall i :: 0 <= i < |config.rules| ==> StoredHolds(req, c, config.rules[i])
    else exists i :: 0 <= i < |config.rules| && StoredHolds(req, c, config.rules[i])
  }

  /** The rules evaluated for a stored configuration are exactly the stored rules. */
  lemma StoredEvaluatedRules(instance: Json, config: Config)
    requires Get(instance, "wvd_visibility") == Some(EncodeConfig(config))
    ensures EvaluatedRules(instance) == EncodeRules(config.rules)
  {
    EncodeConfigFields(config);
    var stored := EncodeRules(config.rules);
    forall i | 0 <= i < |stored|
      ensures Supported(stored[i])
    {
      StoredRuleSupported(config.rules[i]);
    }
    FilterAll(Supported, stored);
  }

  /** The combined results of the stored rules are the typed conditions. */
  lemma StoredResultsMet(req: Request, c: Content, config: Config)
    ensures forall x :: x in EncodeRules(config.rules) ==> Supported(x)
    ensures ConditionsMet(config.matchAll, Results(req, c, EncodeRules(config.rules))) ==
            StoredConditionsMet(req, c, config)
  {
    var stored := EncodeRules(config.rules);
    forall i | 0 <= i < |stored|
      ensures Supported(stored[i])
    {
      StoredRuleSupported(config.rules[i]);
    }
    var results := Results(req, c, stored);
    assert forall i :: 0 <= i < |results| ==> results[i] == StoredHolds(req, c, config.rules[i]);
    ConditionsMetMeaning(config.matchAll, results);
  }

  /**
   * A widget carrying a stored configuration with rules is shown exactly when
   * "show" goes with conditions met, or "hide" with conditions not met.
   */
  lemma StoredDisplay(req: Request, c: Content, instance: Json, config: Config)
    requires IsArray(instance) && Get(instance, "wvd_visibility") == Some(EncodeConfig(config))
    requires |config.rules| > 0
    ensures Display(req, c, instance) == instance <==>
      ((config.action == Show) == StoredConditionsMet(req, c, config))
    ensures Display(req, c, instance) != instance ==> Display(req, c, instance) == JBool(false)
  {
    StoredVisibility(config);
    StoredEvaluatedRules(instance, config);
    StoredResultsMet(req, c, config);
    ShownWithRules(req, c, instance);
  }

  /** The members of a stored configuration as `filter_widget_display` reads them. */
  lemma StoredVisibility(config: Config)
    ensures BoolField(EncodeConfig(config), "match_all") == config.matchAll
    ensures ShowsOnMatch(EncodeConfig(config)) == (config.action == Show)
    ensures !IsEmpty(Field(EncodeConfig(config), "rules")) <==> |config.rules| > 0
  {
    EncodeConfigFields(config);
  }

  /** With rules to evaluate, the action and the combined results decide. */
  lemma ShownWithRules(req: Request, c: Content, instance: Json)
    requires IsArray(instance) && !IsEmpty(Field(Field(instance, "wvd_visibility"), "rules"))
    requires |EvaluatedRules(instance)| > 0
    ensures Shown(req, c, instance) ==
      (ShowsOnMatch(Field(instance, "wvd_visibility")) ==
       ConditionsMet(BoolField(Field(instance, "wvd_visibility"), "match_all"), Results(req, c, EvaluatedRules(instance))))
  {
  }

  // ---------------------------------------------------------------- the filter object

  /** A rule-cache key: `$taxonomy . ':' . $term_id`. */
  function CacheKey(taxonomy: string, id: nat): string
  {
    taxonomy + ":" + NatToString(id)
  }

  /** In a cache key the first ':' ends the taxonomy. */
  lemma FirstColon(taxonomy: string, id: nat)
    requires IsKey(taxonomy)
    ensures CacheKey(taxonomy, id)[|taxonomy|] == ':'
    ensures forall i :: 0 <= i < |taxonomy| ==> CacheKey(taxonomy, id)[i] != ':'
  {
    assert forall i :: 0 <= i < |taxonomy| ==> CacheKey(taxonomy, id)[i] == taxonomy[i];
  }

  /** Distinct (key, id) pairs have distinct cache keys, because a sanitized key holds no ':'. */
  lemma CacheKeyInjective(t1: string, id1: nat, t2: string, id2: nat)
    requires IsKey(t1) && IsKey(t2)
    requires CacheKey(t1, id1) == CacheKey(t2, id2)
    ensures t1 == t2 && id1 == id2
  {
    var k := CacheKey(t1, id1);
    FirstColon(t1, id1);
    FirstColon(t2, id2);
    assert |t1| == |t2|;
    assert t1 == k[..|t1|] == t2;
    assert NatToString(id1) == k[|t1| + 1..] == NatToString(id2);
    DigitsValueOfNatToString(id1);
    DigitsValueOfNatToString(id2);
  }

  /** `WVD_Visibility_Frontend`: the request it serves and its per-request ancestor cache. */
  class VisibilityFilter {
    const req: Request
    const content: Content
    var termAncestorCache: map<string, seq<int>>
    /** How many times `get_ancestors` has been asked. */
    ghost var ancestorLookups: nat

    /** Every cached entry holds what `get_ancestors` returns for its key. */
    ghost predicate Valid()
      reads this
    {
      forall t: string, id: nat {:trigger CacheKey(t, id)} ::
        IsKey(t) && CacheKey(t, id) in termAncestorCache ==>
          termAncestorCache[CacheKey(t, id)] == TermAncestors(content, id, t)
    }

    constructor(req: Request, content: Content)
      ensures this.req == req && this.content == content
      ensures termAncestorCache == map[] && ancestorLookups == 0
      ensures Valid()
    {
      this.req := req;
      this.content := content;
      termAncestorCache := map[];
      ancestorLookups := 0;
    }

    /**
     * `get_term_ancestors`: the ancestors of a term, asked of WordPress at
     * most once per key; cached entries are never changed.
     */
    method GetTermAncestors(termId: int, taxonomy: string) returns (ancestors: seq<int>)
      requires Valid()
      modifies this
      ensures Valid()
      ensures ancestors == CachedAncestors(content, termId, taxonomy)
      ensures forall k :: k in old(termAncestorCache) ==>
        k in termAncestorCache && termAncestorCache[k] == old(termAncestorCache)[k]
      ensures ancestorLookups <= old(ancestorLookups) + 1
      ensures Abs(termId) != 0 && SanitizeKey(taxonomy) != "" ==>
                CacheKey(SanitizeKey(taxonomy), Abs(termId)) in termAncestorCache
      ensures Abs(termId) == 0 || SanitizeKey(taxonomy) == "" ||
              CacheKey(SanitizeKey(taxonomy), Abs(termId)) in old(termAncestorCache) ==>
                termAncestorCache == old(termAncestorCache) && ancestorLookups == old(ancestorLookups)
    {
      var id := Abs(termId);
      var key := SanitizeKey(taxonomy);
      if id == 0 || key == "" {
        return [];
      }
      var cacheKey := CacheKey(key, id);
      if cacheKey in termAncestorCache {
        return termAncestorCache[cacheKey];
      }
      ancestors := TermAncestors(content, id, key);
      ancestorLookups := ancestorLookups + 1;
      termAncestorCache := termAncestorCache[cacheKey := ancestors];
      forall t: string, n: nat | IsKey(t) && CacheKey(t, n) == cacheKey
        ensures t == key && n == id
      {
        CacheKeyInjective(t, n, key, id);
      }
    }

    /** `evaluate_category_rule`. */
    method EvaluateCategoryRule(value: Json, children: bool, descendants: bool) returns (holds: bool)
      ensures holds == CategoryHolds(req, content, value, children, descendants)
    {
      var id := AbsInt(value);
      if id == 0 {
        return false;
      }
      var archive := CategoryArchive(req, content, id, children, descendants);
      if archive.Some? {
        return archive.value;
      }
      if !req.isSingle || QueriedId(req) == 0 {
        return false;
      }
      var cats := AbsAll(PostTerms(content, QueriedId(req), "category"));
      if |cats| == 0 {
        return false;
      }
      if id in cats {
        return true;
      }
      if children || descendants {
        var k := 0;
        while k < |cats|
          invariant 0 <= k <= |cats|
          invariant forall j :: 0 <= j < k ==> !CategoryLinked(content, id, cats[j], children, descendants)
        {
          var ancestors := AbsAll(TermAncestors(content, cats[k], "category"));
          if descendants && id in ancestors {
            assert CategoryLinked(content, id, cats[k], children, descendants);
            return true;
          }
          if children && (cats[k], "category") in content.termParent && Abs(content.termParent[(cats[k], "category")]) == id {
            assert CategoryLinked(content, id, cats[k], children, descendants);
            return true;
          }
          k := k + 1;
        }
      }
      return false;
    }

    /** The body shared by `evaluate_taxonomy_rule` and `evaluate_woo_product_cat_rule`, after their guards. */
    method EvaluateTermRule(taxonomy: string, id: nat, children: bool, descendants: bool, onArchive: bool, onPost: bool)
      returns (holds: bool)
      requires Valid()
      modifies this
      ensures Valid()
      ensures holds == TermRuleHolds(req, content, taxonomy, id, children, descendants, onArchive, onPost)
    {
      if onArchive {
        match req.queried {
          case TermObject(termId, t, parent) =>
            if t != taxonomy {
              return false;
            }
            if termId == id {
              return true;
            }
            if descendants {
              var ancestors := GetTermAncestors(termId, taxonomy);
              if id in ancestors {
                return true;
              }
            }
            if children && parent == id {
              return true;
            }
          case _ =>
            return false;
        }
      }
      if !onPost || QueriedId(req) == 0 {
        return false;
      }
      var terms := PostTerms(content, QueriedId(req), taxonomy);
      if |terms| == 0 {
        return false;
      }
      if id in terms {
        return true;
      }
      if children || descendants {
        var k := 0;
        while k < |terms|
          invariant 0 <= k <= |terms|
          invariant Valid()
          invariant forall j :: 0 <= j < k ==> !TermLinked(content, taxonomy, id, terms[j], children, descendants)
        {
          if descendants {
            var ancestors := GetTermAncestors(terms[k], taxonomy);
            if id in ancestors {
              assert TermLinked(content, taxonomy, id, terms[k], children, descendants);
              return true;
            }
          }
          if children && (terms[k], taxonomy) in content.termParent && content.termParent[(terms[k], taxonomy)] == id {
            assert TermLinked(content, taxonomy, id, terms[k], children, descendants);
            return true;
          }
          k := k + 1;
        }
      }
      return false;
    }

    /** `evaluate_user_role_rule`. */
    method EvaluateUserRoleRule(selected: seq<Json>) returns (holds: bool)
      ensures holds == UserRoleHolds(req, selected)
    {
      if !req.loggedIn || |selected| == 0 || req.userId == 0 {
        return false;
      }
      var userRoles := UserRoleKeys(req);
      for k := 0 to |selected|
        invariant forall j :: 0 <= j < k ==> !RoleMatches(req, selected[j])
      {
        if IsScalar(selected[k]) {
          var role := SanitizeKey(ToStr(selected[k]));
          if role != "" && role in userRoles {
            assert RoleMatches(req, selected[k]);
            return true;
          }
        }
      }
      return false;
    }

    /** `evaluate_rule`, for a rule that passed the filter. */
    method EvaluateRule(rule: Json) returns (holds: bool)
      requires Supported(rule)
      requires Valid()
      modifies this
      ensures Valid()
      ensures holds == Holds(req, content, rule)
    {
      var value := Member(rule, "value");
      var children := BoolField(rule, "include_children");
      var descendants := BoolField(rule, "include_descendants");
      match SupportedKind(rule) {
        case CategoryKind =>
          holds := EvaluateCategoryRule(value, children, descendants);
        case TaxonomyKind =>
          var taxonomy := RuleTaxonomy(rule);
          var id := AbsInt(value);
          if taxonomy == "" || taxonomy !in content.taxonomies || id == 0 {
            return false;
          }
          holds := EvaluateTermRule(taxonomy, id, children, descendants, req.taxArchive == Some(taxonomy), req.isSingular);
        case WooProductCatKind =>
          var id := AbsInt(value);
          if id == 0 || "product_cat" !in content.taxonomies {
            return false;
          }
          holds := EvaluateTermRule("product_cat", id, children, descendants, req.isProductCategory, req.isProduct);
        case UserRoleKind =>
          holds := EvaluateUserRoleRule(RuleValues(rule));
        case _ =>
          holds := Holds(req, content, rule);
      }
    }

    /** The `foreach` of `filter_widget_display` that evaluates every kept rule in order. */
    method EvaluateRules(rules: seq<Json>) returns (results: seq<bool>)
      requires Valid()
      requires forall x :: x in rules ==> Supported(x)
      modifies this
      ensures Valid()
      ensures results == Results(req, content, rules)
    {
      ghost var expected := Results(req, content, rules);
      results := [];
      for i := 0 to |rules|
        invariant Valid()
        invariant results == expected[..i]
      {
        var holds := EvaluateRule(rules[i]);
        assert holds == expected[i];
        assert expected[..i + 1] == expected[..i] + [expected[i]];
        results := results + [holds];
      }
      assert expected[..|rules|] == expected;
    }

    /** `filter_widget_display`: the instance, or false when the rules hide the widget. */
    method FilterWidgetDisplay(instance: Json) returns (result: Json)
      requires Valid()
      modifies this
      ensures Valid()
      ensures result == Display(req, content, instance)
    {
      var visibility := Field(instance, "wvd_visibility");
      if !IsArray(instance) || IsEmpty(Field(visibility, "rules")) {
        return instance;
      }
      var rules := EvaluatedRules(instance);
      if |rules| == 0 {
        return instance;
      }
      var results := EvaluateRules(rules);
      var met := ConditionsMet(BoolField(visibility, "match_all"), results);
      if ShowsOnMatch(visibility) {
        result := if met then instance else JBool(false);
      } else {
        result := if met then JBool(false) else instance;
      }
    }
  }
}
