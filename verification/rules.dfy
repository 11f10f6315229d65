/**
 * The canonical visibility configuration the save-time sanitizer produces: one
 * constructor per rule kind, each carrying only the fields its kind uses, and
 * `Encode`, which gives the exact array the sanitizer stores for it (members
 * in the order PHP inserts them).
 */
module Rules {
  import opened Values
  import opened Php

  /** Caps applied when a configuration is saved. */
  const MaxRules: nat := 50
  const MaxValueLength: nat := 100
  const MaxRoleValues: nat := 20

  /** A positive integer id (page, term, user). */
  type Id = n: nat | n > 0 witness 1

  datatype Action = Show | Hide

  datatype Device = Mobile | Desktop

  /** The kinds without a payload: each tests one fact about the current request. */
  datatype FlagKind =
    | FrontPage | Blog | Archive | Search | NotFound | Single | LoggedIn | LoggedOut
    | WooShop | WooCart | WooCheckout | WooAccount

  datatype Kind =
    | PageKind | CategoryKind | TagKind | AuthorKind | PostTypeKind | TaxonomyKind
    | UserRoleKind | ScheduleKind | UrlParamKind | DeviceKind | WooProductCatKind
    | FlagKindOf(flag: FlagKind)

  /** The 23 rule type names the sanitizer and the evaluator accept, in the plugin's order. */
  const AllowedTypes: seq<string> := [
    "page", "category", "tag", "author", "post_type", "front_page", "blog",
    "archive", "search", "404", "single", "logged_in", "logged_out",
    "taxonomy", "user_role", "schedule", "url_param", "device",
    "woo_shop", "woo_cart", "woo_checkout", "woo_account", "woo_product_cat"
  ]

  function FlagName(f: FlagKind): string
  {
    match f
    case FrontPage => "front_page"
    case Blog => "blog"
    case Archive => "archive"
    case Search => "search"
    case NotFound => "404"
    case Single => "single"
    case LoggedIn => "logged_in"
    case LoggedOut => "logged_out"
    case WooShop => "woo_shop"
    case WooCart => "woo_cart"
    case WooCheckout => "woo_checkout"
    case WooAccount => "woo_account"
  }

  function KindName(k: Kind): string
  {
    match k
    case PageKind => "page"
    case CategoryKind => "category"
    case TagKind => "tag"
    case AuthorKind => "author"
    case PostTypeKind => "post_type"
    case TaxonomyKind => "taxonomy"
    case UserRoleKind => "user_role"
    case ScheduleKind => "schedule"
    case UrlParamKind => "url_param"
    case DeviceKind => "device"
    case WooProductCatKind => "woo_product_cat"
    case FlagKindOf(f) => FlagName(f)
  }

  /** The kind a type name denotes (`AllowedNamesAreKinds`: exactly the allowed names denote one). */
  function KindNamed(name: string): (r: Option<Kind>)
    ensures r.Some? ==> KindName(r.value) == name
  {
    var k := PayloadKindNamed(name);
    if k.Some? then k
    else
      var f := FlagNamed(name);
      if f.Some? then Some(FlagKindOf(f.value)) else None
  }

  /** The names of the kinds that carry a payload. */
  function PayloadKindNamed(name: string): (r: Option<Kind>)
    ensures r.Some? ==> !r.value.FlagKindOf? && KindName(r.value) == name
  {
    if name == "page" then Some(PageKind)
    else if name == "category" then Some(CategoryKind)
    else if name == "tag" then Some(TagKind)
    else if name == "author" then Some(AuthorKind)
    else if name == "post_type" then Some(PostTypeKind)
    else if name == "taxonomy" then Some(TaxonomyKind)
    else if name == "user_role" then Some(UserRoleKind)
    else if name == "schedule" then Some(ScheduleKind)
    else if name == "url_param" then Some(UrlParamKind)
    else if name == "device" then Some(DeviceKind)
    else if name == "woo_product_cat" then Some(WooProductCatKind)
    else None
  }

  /** The names of the conditional-tag kinds. */
  function FlagNamed(name: string): (r: Option<FlagKind>)
    ensures r.Some? ==> FlagName(r.value) == name
  {
    if name == "front_page" then Some(FrontPage)
    else if name == "blog" then Some(Blog)
    else if name == "archive" then Some(Archive)
    else if name == "search" then Some(Search)
    else if name == "404" then Some(NotFound)
    else if name == "single" then Some(Single)
    else if name == "logged_in" then Some(LoggedIn)
    else if name == "logged_out" then Some(LoggedOut)
    else if name == "woo_shop" then Some(WooShop)
    else if name == "woo_cart" then Some(WooCart)
    else if name == "woo_checkout" then Some(WooCheckout)
    else if name == "woo_account" then Some(WooAccount)
    else None
  }

  /** The allow-list and the kinds agree: a name denotes a kind exactly when it is on the list. */
  lemma AllowedNamesAreKinds(name: string)
    ensures KindNamed(name).Some? <==> name in AllowedTypes
  {
    if KindNamed(name).Some? {
      KindNameRoundTrip(KindNamed(name).value);
    } else {
      forall i | 0 <= i < |AllowedTypes|
        ensures AllowedTypes[i] != name
      {
        AllowedTypeNamed(i);
      }
    }
  }

  /** Each entry of the allow-list denotes a kind. */
  lemma AllowedTypeNamed(i: nat)
    requires i < |AllowedTypes|
    ensures KindNamed(AllowedTypes[i]).Some?
  {
    if i < 5 || 13 <= i < 18 || i == 22 {
      assert PayloadKindNamed(AllowedTypes[i]).Some?;
    } else {
      assert FlagNamed(AllowedTypes[i]).Some?;
    }
  }

  /** Every kind has its own name, and that name reads back as the kind. */
  lemma KindNameRoundTrip(k: Kind)
    ensures KindNamed(KindName(k)) == Some(k)
    ensures KindName(k) in AllowedTypes
  {
    if k.FlagKindOf? {
      FlagNameRoundTrip(k.flag);
    } else {
      PayloadNameRoundTrip(k);
    }
  }

  lemma PayloadNameRoundTrip(k: Kind)
    requires !k.FlagKindOf?
    ensures PayloadKindNamed(KindName(k)) == Some(k)
    ensures KindName(k) in AllowedTypes
  {
    PayloadNameAllowed(k);
    match k
    case PageKind =>
    case CategoryKind =>
    case TagKind =>
    case AuthorKind =>
    case PostTypeKind =>
    case TaxonomyKind =>
    case UserRoleKind =>
    case ScheduleKind =>
    case UrlParamKind =>
    case DeviceKind =>
    case WooProductCatKind =>
  }

  lemma PayloadNameAllowed(k: Kind)
    requires !k.FlagKindOf?
    ensures KindName(k) in AllowedTypes
  {
    match k
    case PageKind => assert AllowedTypes[0] == KindName(k);
    case CategoryKind => assert AllowedTypes[1] == KindName(k);
    case TagKind => assert AllowedTypes[2] == KindName(k);
    case AuthorKind => assert AllowedTypes[3] == KindName(k);
    case PostTypeKind => assert AllowedTypes[4] == KindName(k);
    case TaxonomyKind => assert AllowedTypes[13] == KindName(k);
    case UserRoleKind => assert AllowedTypes[14] == KindName(k);
    case ScheduleKind => assert AllowedTypes[15] == KindName(k);
    case UrlParamKind => assert AllowedTypes[16] == KindName(k);
    case DeviceKind => assert AllowedTypes[17] == KindName(k);
    case WooProductCatKind => assert AllowedTypes[22] == KindName(k);
  }

  /** A conditional tag's name reads back as that tag. */
  lemma FlagNameRoundTrip(f: FlagKind)
    ensures KindNamed(FlagName(f)) == Some(FlagKindOf(f))
    ensures FlagName(f) in AllowedTypes
  {
    FlagNameNotPayload(f);
    FlagNameAllowed(f);
    match f
    case FrontPage =>
    case Blog =>
    case Archive =>
    case Search =>
    case NotFound =>
    case Single =>
    case LoggedIn =>
    case LoggedOut =>
    case WooShop =>
    case WooCart =>
    case WooCheckout =>
    case WooAccount =>
  }

  lemma FlagNameAllowed(f: FlagKind)
    ensures FlagName(f) in AllowedTypes
  {
    match f
    case FrontPage => assert AllowedTypes[5] == FlagName(f);
    case Blog => assert AllowedTypes[6] == FlagName(f);
    case Archive => assert AllowedTypes[7] == FlagName(f);
    case Search => assert AllowedTypes[8] == FlagName(f);
    case NotFound => assert AllowedTypes[9] == FlagName(f);
    case Single => assert AllowedTypes[10] == FlagName(f);
    case LoggedIn => assert AllowedTypes[11] == FlagName(f);
    case LoggedOut => assert AllowedTypes[12] == FlagName(f);
    case WooShop => assert AllowedTypes[18] == FlagName(f);
    case WooCart => assert AllowedTypes[19] == FlagName(f);
    case WooCheckout => assert AllowedTypes[20] == FlagName(f);
    case WooAccount => assert AllowedTypes[21] == FlagName(f);
  }

  /** No conditional tag shares its name with a kind that carries a payload. */
  lemma FlagNameNotPayload(f: FlagKind)
    ensures PayloadKindNamed(FlagName(f)) == None
  {
    match f
    case FrontPage =>
    case Blog =>
    case Archive =>
    case Search =>
    case NotFound =>
    case Single =>
    case LoggedIn =>
    case LoggedOut =>
    case WooShop =>
    case WooCart =>
    case WooCheckout =>
    case WooAccount =>
  }

  /** Every type name is already a `sanitize_key` key, so sanitizing it again changes nothing. */
  lemma KindNameIsKey(k: Kind)
    ensures IsKey(KindName(k))
  {
    if k.FlagKindOf? {
      FlagNameIsKey(k.flag);
    } else {
      var n := KindName(k);
      assert forall i :: 0 <= i < |n| ==> KeyChar(n[i]);
    }
  }

  lemma FlagNameIsKey(f: FlagKind)
    ensures IsKey(FlagName(f))
  {
    var n := FlagName(f);
    if f == NotFound {
      assert n == "404";
    }
    assert forall i :: 0 <= i < |n| ==> KeyChar(n[i]);
  }

  /** The kinds whose rules carry include-children and include-descendants options. */
  predicate SupportsHierarchy(typeName: string)
  {
    typeName == "page" || typeName == "category" || typeName == "taxonomy" || typeName == "woo_product_cat"
  }

  datatype Rule =
    | Page(id: Id, includeChildren: bool, includeDescendants: bool)
    | Category(id: Id, includeChildren: bool, includeDescendants: bool)
    | Tag(id: Id)
    | Author(id: Id)
    | PostType(slug: string)
    | Taxonomy(taxonomy: string, id: Id, includeChildren: bool, includeDescendants: bool)
    | UserRole(roles: seq<string>)
    | Schedule(startDate: string, endDate: string)
    | UrlParam(paramName: string, paramValue: string)
    | DeviceRule(device: Device)
    | WooProductCat(id: Id, includeChildren: bool, includeDescendants: bool)
    | Flag(flag: FlagKind, value: string)
  {
    function Kind(): Kind
    {
      match this
      case Page(_, _, _) => PageKind
      case Category(_, _, _) => CategoryKind
      case Tag(_) => TagKind
      case Author(_) => AuthorKind
      case PostType(_) => PostTypeKind
      case Taxonomy(_, _, _, _) => TaxonomyKind
      case UserRole(_) => UserRoleKind
      case Schedule(_, _) => ScheduleKind
      case UrlParam(_, _) => UrlParamKind
      case DeviceRule(_) => DeviceKind
      case WooProductCat(_, _, _) => WooProductCatKind
      case Flag(f, _) => FlagKindOf(f)
    }

    predicate HasHierarchy()
    {
      Page? || Category? || Taxonomy? || WooProductCat?
    }

    /** The stored include_children flag: as chosen for the four hierarchical kinds, false for the rest. */
    function Children(): bool
    {
      if HasHierarchy() then includeChildren else false
    }

    function Descendants(): bool
    {
      if HasHierarchy() then includeDescendants else false
    }

    /** The stored `value` member. */
    function Value(): string
    {
      match this
      case Page(id, _, _) => NatToString(id)
      case Category(id, _, _) => NatToString(id)
      case Tag(id) => NatToString(id)
      case Author(id) => NatToString(id)
      case PostType(slug) => slug
      case Taxonomy(_, id, _, _) => NatToString(id)
      case UserRole(_) => ""
      case Schedule(_, _) => ""
      case UrlParam(_, _) => ""
      case DeviceRule(d) => if d == Mobile then "mobile" else "desktop"
      case WooProductCat(id, _, _) => NatToString(id)
      case Flag(_, v) => v
    }
  }

  datatype Config = Config(action: Action, matchAll: bool, rules: seq<Rule>)

  function StringList(xs: seq<string>): (r: seq<Json>)
    ensures |r| == |xs| && forall i :: 0 <= i < |xs| ==> r[i] == JStr(xs[i])
  {
    seq(|xs|, i requires 0 <= i < |xs| => JStr(xs[i]))
  }

  /** The members a kind adds after the three common ones, in PHP insertion order. */
  function KindMembers(r: Rule): seq<(string, Json)>
  {
    match r
    case UserRole(roles) => [("values", JList(StringList(roles))), ("value", JStr(""))]
    case Taxonomy(tax, _, _, _) => [("taxonomy", JStr(tax)), ("value", JStr(r.Value()))]
    case Schedule(s, e) => [("start_date", JStr(s)), ("end_date", JStr(e)), ("value", JStr(""))]
    case UrlParam(n, v) => [("param_name", JStr(n)), ("param_value", JStr(v)), ("value", JStr(""))]
    case _ => [("value", JStr(r.Value()))]
  }

  /** The array `sanitize_visibility_data` stores for a rule. */
  function Encode(r: Rule): Json
  {
    JObject([("type", JStr(KindName(r.Kind()))),
             ("include_children", JBool(r.Children())),
             ("include_descendants", JBool(r.Descendants()))]
            + KindMembers(r))
  }

  /** The keys a kind adds never repeat the three common ones. */
  lemma KindMemberKeys(r: Rule)
    ensures forall j :: 0 <= j < |KindMembers(r)| ==>
      KindMembers(r)[j].0 != "type" && KindMembers(r)[j].0 != "include_children" &&
      KindMembers(r)[j].0 != "include_descendants"
    ensures KindMembers(r)[|KindMembers(r)| - 1].0 == "value"
  {
  }

  /** Each member of a stored rule reads back as the field it was written from. */
  lemma EncodeFields(r: Rule)
    ensures Get(Encode(r), "type") == Some(JStr(KindName(r.Kind())))
    ensures Get(Encode(r), "include_children") == Some(JBool(r.Children()))
    ensures Get(Encode(r), "include_descendants") == Some(JBool(r.Descendants()))
    ensures Get(Encode(r), "value") == Some(JStr(r.Value()))
  {
    var m := Encode(r).members;
    KindMemberKeys(r);
    assert forall j :: 3 <= j < |m| ==> m[j] == KindMembers(r)[j - 3];
    LookupLast(m, 0);
    LookupLast(m, 1);
    LookupLast(m, 2);
    LookupLast(m, |m| - 1);
  }

  /** The members only some kinds have read back as well. */
  lemma EncodeKindFields(r: Rule)
    ensures r.UserRole? ==> Get(Encode(r), "values") == Some(JList(StringList(r.roles)))
    ensures r.Taxonomy? ==> Get(Encode(r), "taxonomy") == Some(JStr(r.taxonomy))
    ensures r.Schedule? ==> Get(Encode(r), "start_date") == Some(JStr(r.startDate))
    ensures r.Schedule? ==> Get(Encode(r), "end_date") == Some(JStr(r.endDate))
    ensures r.UrlParam? ==> Get(Encode(r), "param_name") == Some(JStr(r.paramName))
    ensures r.UrlParam? ==> Get(Encode(r), "param_value") == Some(JStr(r.paramValue))
  {
    var m := Encode(r).members;
    if r.UserRole? || r.Taxonomy? {
      LookupLast(m, 3);
    } else if r.Schedule? || r.UrlParam? {
      LookupLast(m, 3);
      LookupLast(m, 4);
    }
  }

  function EncodeRules(rules: seq<Rule>): (r: seq<Json>)
    ensures |r| == |rules| && forall i :: 0 <= i < |rules| ==> r[i] == Encode(rules[i])
  {
    seq(|rules|, i requires 0 <= i < |rules| => Encode(rules[i]))
  }

  /** The array stored for a whole configuration. */
  function EncodeConfig(c: Config): Json
  {
    JObject([("action", JStr(if c.action == Hide then "hide" else "show")),
             ("match_all", JBool(c.matchAll)),
             ("rules", JList(EncodeRules(c.rules)))])
  }

  /** The three members of a stored configuration read back. */
  lemma EncodeConfigFields(c: Config)
    ensures Get(EncodeConfig(c), "action") == Some(JStr(if c.action == Hide then "hide" else "show"))
    ensures Get(EncodeConfig(c), "match_all") == Some(JBool(c.matchAll))
    ensures Get(EncodeConfig(c), "rules") == Some(JList(EncodeRules(c.rules)))
  {
    var m := EncodeConfig(c).members;
    LookupLast(m, 0);
    LookupLast(m, 1);
    LookupLast(m, 2);
  }
}
