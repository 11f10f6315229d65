# Widget visibility rules, modelled in Dafny

A Dafny model of the core of the WordPress plugin *Cybokron Advanced Widget
Visibility*. The plugin stores, in every widget's settings, a `wvd_visibility`
configuration `{action, match_all, rules}`. Each rule names one of 23 kinds,
such as a page, a category, a custom taxonomy term, a user role, a date window,
a URL parameter, a device or a WooCommerce page. The model covers:

- **Saving** (`Admin`): `sanitize_visibility_data` turns whatever the widget
  form posted into a canonical configuration. It uses the role and taxonomy
  allow-lists. The depth walk that indents category options is also here.
- **Displaying** (`Frontend`): `filter_widget_display` evaluates the stored
  rules against the request and decides whether the widget renders. The
  class `VisibilityFilter` keeps the term-ancestor cache.
- **The widget form's script** (`AdminScript`): reading the hidden JSON field
  back into a normal form, the coupling of the two hierarchy checkboxes, and
  `escapeHtml`.
- **Import and export** (`ImportExport`): collecting every placed widget's
  visibility into a document, and writing such a document back into the
  widget options. The class `WidgetStore` holds the options.
- **Presets** (`PresetStore`): named configurations in one option, with save,
  list, load and delete.

Shared modules:

- `Values` holds decoded JSON/PHP arrays (`Json`, ordered members). A
  decoded object has one member per key, so reading a key finds that one
  member.
- `Php` holds the PHP and WordPress coercions the code relies on: `isset`,
  `empty`, `intval`/`absint`, `(string)`, `sanitize_key`, a simplified
  `sanitize_text_field`, and byte-wise string order.
- `Js` holds JavaScript truthiness and `String()`.
- `Rules` holds the canonical rule datatype and the exact array the sanitizer
  stores for it.

Main results:

- Sanitizing stored data gives it back: `Admin.SanitizeEncodedConfig`, and so
  `Admin.SanitizeIdempotent`.
- Every stored rule passes the display-time filter as the kind it was stored
  as.
- The display decision is exactly "the action agrees with whether the rules
  are met, in the sense `match_all` asks" (`Frontend.StoredDisplay`).
- `escapeHtml` output contains no `<`, `>`, `"` or `'`, and decodes back to its
  input.
- Reading the form's JSON is idempotent.
- A widget id splits exactly as `/^(.+)-(\d+)$/` does.
- An exported entry imports back into the widget it came from.
- The preset store keeps at most 50 presets with unique names.

Behaviour that shows up in the proofs:

- Imported visibility data is stored without going through the sanitizer
  (`ImportExport.ApplyEntryEffect`).
- Saving a preset is refused once 50 presets exist, even when it would
  overwrite one of them (`Presets.SaveOutcomeRefusals`).

## Model

| member | source | states |
|---|---|---|
| Rules.KindNamed | includes/class-visibility-admin.php:569-574 | a type name is accepted only as the kind whose name it is |
| Rules.AllowedNamesAreKinds | includes/class-visibility-admin.php:596 | a name is in the 23-entry allow-list exactly when some rule kind has that name |
| Rules.KindNameRoundTrip | includes/class-visibility-frontend.php:73-99 | every kind's name maps back to that kind and is one of the supported types |
| Rules.KindNameIsKey | includes/class-visibility-admin.php:595 | every kind's name is already a sanitized key |
| Rules.EncodeFields | includes/class-visibility-admin.php:608-612 | a stored rule's array holds its type, its two hierarchy flags and its value under the keys the sanitizer writes |
| Rules.EncodeKindFields | includes/class-visibility-admin.php:639-775 | the kind-specific members (`values`, `taxonomy`, dates, URL parameter) hold the rule's payload |
| Rules.EncodeConfigFields | includes/class-visibility-admin.php:563-567 | the stored configuration holds the action as 'show'/'hide', `match_all` as a boolean and the encoded rules |
| Rules.SupportsHierarchy | assets/js/admin.js:665-667 | the kinds with include-children and include-descendants options are exactly page, category, taxonomy and product category |
| Admin.ValidPostTypes | includes/class-visibility-admin.php:580 | every allowed post type is a sanitized key |
| Admin.IsValidHierarchicalTaxonomy | includes/class-visibility-admin.php:488-500 | a taxonomy is valid when it is a non-empty name other than 'category', registered, public and hierarchical; `Admin.TaxonomyRule` keeps a rule exactly for such a taxonomy |
| Admin.RoleSlugs | includes/class-visibility-admin.php:472-483 | the role allow-list has no repeats, and each slug is a non-empty key other than '0' |
| Admin.RoleSlugOf | includes/class-visibility-admin.php:439-483 | a registered role contributes at most one slug: its `sanitize_key`, dropped when it is '' or '0' |
| Admin.RoleSlugsAreKeys | includes/class-visibility-admin.php:476-480 | every slug the role loop collects is a non-empty key other than '0' |
| Admin.GetRoleSlugs | includes/class-visibility-admin.php:472-483 | the loop followed by `array_unique` computes `RoleSlugs` |
| Admin.RuleText | includes/class-visibility-admin.php:601-603 | a scalar member read as text is clean text (no control characters or angle brackets) |
| Admin.RuleValue | includes/class-visibility-admin.php:600-606 | the rule value is the sanitized `value` cut to 100 bytes: a prefix of it, equal to it when it fits and exactly 100 bytes otherwise; always clean text |
| Admin.DateField | includes/class-visibility-admin.php:730-741 | a schedule date is the sanitized text exactly when that text matches `^\d{4}-\d{2}-\d{2}$`, and '' otherwise, so it is always '' or a YYYY-MM-DD date |
| Admin.SelectedRoles | includes/class-visibility-admin.php:622-635 | the kept roles are distinct, at most 20, and each is a non-empty allowed slug |
| Admin.CandidateRolesValid | includes/class-visibility-admin.php:627-633 | every candidate the role loop keeps is a non-empty allowed slug |
| Admin.CollectRoles | includes/class-visibility-admin.php:622-635 | the loop that stops at 20 roles, then `array_unique`, computes `SelectedRoles` |
| Admin.ValueIdFits | includes/class-visibility-admin.php:604-605 | an id read from a value of at most 100 bytes prints within 100 bytes |
| Admin.RuleKind | includes/class-visibility-admin.php:591-598 | a kind is found only for an array rule, and its name is the sanitized `type` |
| Admin.IdRule | includes/class-visibility-admin.php:687-724 | page, category, tag, author and product-category rules are kept exactly when the id (`absint` of the value) is positive; the rule has that kind and id, and the hierarchical kinds keep the flags as given |
| Admin.TaxonomyRule | includes/class-visibility-admin.php:649-670 | kept exactly when the `taxonomy` member is a scalar whose `sanitize_key` names a valid hierarchical taxonomy, the `absint` id is positive and that term exists in it; the kept rule is that taxonomy, that id and both flags as given |
| Admin.UserRoleRule | includes/class-visibility-admin.php:615-646 | kept exactly when at least one candidate role is an allowed slug; the kept roles are the first 20 allowed candidates with repeats removed |
| Admin.PostTypeRule | includes/class-visibility-admin.php:673-684 | kept exactly when the `sanitize_key` of the value is non-empty and a public post type; the kept rule names that slug |
| Admin.ScheduleRule | includes/class-visibility-admin.php:727-753 | kept exactly when at least one of the two dates survives `DateField`; the kept dates are those readings, each '' or YYYY-MM-DD |
| Admin.UrlParamRule | includes/class-visibility-admin.php:756-782 | kept exactly when the sanitized name is non-empty; the kept name and value are the sanitized `param_name` and `param_value`, each cut to 100 bytes (a prefix, equal when it fits, exactly 100 bytes otherwise), and clean |
| Admin.DeviceOf | includes/class-visibility-admin.php:785-796 | kept exactly for the keys 'mobile' and 'desktop', with that value |
| Admin.SanitizeRule | includes/class-visibility-admin.php:586-816 | no rule for an unknown or missing `type`; a payload-free kind is always kept with its sanitized value; a kept rule is well formed for the site and has the kind its `type` names |
| Admin.SanitizeRuleOptions | includes/class-visibility-admin.php:608-612 | a kept rule of a hierarchical kind carries `include_children` and `include_descendants` as posted |
| Admin.SanitizeConfig | includes/class-visibility-admin.php:558-820 | the result is well formed (at most 50 rules); the action is hide exactly when 'hide' was posted; `match_all` is `!empty` of the posted one |
| Admin.Sanitize | includes/class-visibility-admin.php:558-567 | the array stored for posted data: `[]` for a non-array, else the encoding of `SanitizeConfig`; `Admin.SanitizeIdempotent` proves sanitizing it again changes nothing |
| Admin.SanitizedRulesWellFormed | includes/class-visibility-admin.php:584-817 | every rule the loop appends is well formed |
| Admin.SanitizeOneRule | includes/class-visibility-admin.php:586-816 | one pass of the rule loop, with the role list read once, computes `SanitizeRule` |
| Admin.SanitizeRules | includes/class-visibility-admin.php:584-817 | the loop that stops at 50 rules keeps the first 50 sanitized rules, in order |
| Admin.SanitizeVisibilityData | includes/class-visibility-admin.php:558-820 | the loop with its 50-rule cap returns the encoded `SanitizeConfig`, or `[]` for a non-array |
| Admin.RuleKindOfEncode | includes/class-visibility-admin.php:591-598 | the stored `type` reads back as the rule's kind |
| Admin.RuleValueOfEncode | includes/class-visibility-admin.php:600-606 | a clean stored value within the cap reads back unchanged |
| Admin.StoredValueClean | includes/class-visibility-admin.php:600-606 | every well-formed rule's stored value is clean and within the cap |
| Admin.ValueIdOfNatToString | includes/class-visibility-admin.php:688 | `absint` of a stored id string is that id |
| Admin.SelectedRolesOfStored | includes/class-visibility-admin.php:622-635 | re-selecting a stored role list gives it back |
| Admin.StoredCommonFields | includes/class-visibility-admin.php:595-612 | type, value and flags of a stored rule read back as stored |
| Admin.SanitizeEncodedIdRule | includes/class-visibility-admin.php:687-724 | re-sanitizing a stored id rule gives it back |
| Admin.SanitizeEncodedTaxonomyRule | includes/class-visibility-admin.php:649-670 | re-sanitizing a stored taxonomy rule gives it back |
| Admin.SanitizeEncodedPostTypeRule | includes/class-visibility-admin.php:673-684 | re-sanitizing a stored post-type rule gives it back |
| Admin.SanitizeEncodedUserRoleRule | includes/class-visibility-admin.php:615-646 | re-sanitizing a stored role rule gives it back |
| Admin.SanitizeEncodedScheduleRule | includes/class-visibility-admin.php:727-753 | re-sanitizing a stored schedule gives it back |
| Admin.StoredDateField | includes/class-visibility-admin.php:730-735 | a stored date reads back unchanged |
| Admin.StoredDate | includes/class-visibility-admin.php:731-732 | a stored date is clean and matches the date pattern |
| Admin.SanitizeEncodedUrlParamRule | includes/class-visibility-admin.php:756-782 | re-sanitizing a stored URL-parameter rule gives it back |
| Admin.SanitizeEncodedDeviceRule | includes/class-visibility-admin.php:785-796 | re-sanitizing a stored device rule gives it back |
| Admin.DeviceNamesAreKeys | includes/class-visibility-admin.php:786-787 | 'mobile' and 'desktop' are their own keys |
| Admin.SanitizeEncodedRule | includes/class-visibility-admin.php:586-816 | re-sanitizing any well-formed stored rule gives it back |
| Admin.RuleStepOfStored | includes/class-visibility-admin.php:586-816 | one loop iteration on a stored rule appends exactly that rule |
| Admin.CollectEncodedRules | includes/class-visibility-admin.php:584-817 | the rule loop over a stored rule list gives the list back |
| Admin.SanitizeEncodedConfig | includes/class-visibility-admin.php:558-820 | sanitizing a stored configuration gives it back |
| Admin.SanitizeIdempotent | includes/class-visibility-admin.php:558-567 | sanitizing twice equals sanitizing once for an array; the `[]` stored for a non-array becomes the default configuration |
| Admin.ParentChain | includes/class-visibility-admin.php:195-202 | the parent walk visits distinct listed positive ids, starts at the first parent and follows parent links |
| Admin.TermDepth | includes/class-visibility-admin.php:298-307 | the `$seen` loop ends, and its depth is the length of the parent chain and at most the number of listed terms |
| Frontend.AbsAll | includes/class-visibility-frontend.php:185 | `array_map('absint', …)` keeps length and maps each id to its magnitude |
| Frontend.Member | includes/class-visibility-frontend.php:105-106 | a member read with the `isset(...) ? ... : ''` default is never null |
| Frontend.Supported | includes/class-visibility-frontend.php:46-50 | a rule is evaluated when it is an array whose `type` is a string among the 23 supported names (`get_supported_rule_types`, line 73) |
| Frontend.Holds | includes/class-visibility-frontend.php:104-166 | dispatches a supported rule on its kind to the evaluator below, reading `value`, the two flags, `values`, the dates and the URL parameter as `evaluate_rule` does |
| Frontend.PageHolds | includes/class-visibility-frontend.php:171-195 | a positive page id matches the viewed page itself, an ancestor with descendants, or the parent with children |
| Frontend.CategoryHolds | includes/class-visibility-frontend.php:200-263 | a positive category id matches the category archive (term, ancestor, parent), otherwise a category of the viewed single post or one linked to it |
| Frontend.TagHolds | includes/class-visibility-frontend.php:270-293 | a positive tag id matches its tag archive or a single post carrying that tag |
| Frontend.AuthorHolds | includes/class-visibility-frontend.php:298-318 | a positive author id matches that author's archive or a singular post written by that author |
| Frontend.ScheduleHolds | includes/class-visibility-frontend.php:323-339 | today is not before a non-empty start date and not after a non-empty end date, and at least one date is set |
| Frontend.UrlParamHolds | includes/class-visibility-frontend.php:346-365 | the sanitized parameter is present in the query, and equal to the expected value when one is given |
| Frontend.DeviceHolds | includes/class-visibility-frontend.php:372-385 | 'mobile' holds on a mobile client, 'desktop' on any other client, and any other value never holds (PHP's loose `switch` comparison) |
| Frontend.FlagHolds | includes/class-visibility-frontend.php:125-146 | each payload-free kind is its conditional tag; the WooCommerce ones are the evaluators at lines 392-426 |
| Frontend.WooProductCatHolds | includes/class-visibility-frontend.php:428-491 | a positive product-category id matches on its archive or on a product, as the taxonomy evaluator does for 'product_cat' |
| Frontend.PostTypeHolds | includes/class-visibility-frontend.php:496-502 | a registered post type matches a singular view of that type or its archive |
| Frontend.TaxonomyHolds | includes/class-visibility-frontend.php:507-575 | a registered taxonomy and a positive term id match the term archive (term, cached ancestor, parent), otherwise a term of the viewed post or one linked to it |
| Frontend.UserRoleHolds | includes/class-visibility-frontend.php:580-603 | a logged-in user with a non-zero id holds one of the selected roles after `sanitize_key` |
| Frontend.CachedAncestors | includes/class-visibility-frontend.php:610-628 | no ancestors for a zero id or an empty taxonomy key, else the term's ancestors |
| Frontend.RuleTaxonomy | includes/class-visibility-frontend.php:107 | the taxonomy the evaluator receives is a sanitized key |
| Frontend.SupportedRules | includes/class-visibility-frontend.php:46-50 | the filter keeps exactly the rules of the list that are arrays with a supported string type |
| Frontend.EvaluatedRules | includes/class-visibility-frontend.php:43-50 | every evaluated rule is supported |
| Frontend.Results | includes/class-visibility-frontend.php:56-59 | one result per rule, each `evaluate_rule` of it |
| Frontend.ConditionsMetMeaning | includes/class-visibility-frontend.php:61 | `match_all` means every result holds, otherwise at least one does |
| Frontend.Shown | includes/class-visibility-frontend.php:36-67 | the widget renders when the instance is not an array, has no rules or no supported rule, and otherwise exactly when the action is 'show' and the conditions are met, or the action hides and they are not |
| Frontend.Display | includes/class-visibility-frontend.php:35-68 | the instance is returned unchanged when shown, else `false` (and only for an array instance) |
| Frontend.StoredRuleSupported | includes/class-visibility-frontend.php:46-50 | every stored rule passes the filter as the kind it was stored as |
| Frontend.StoredFlagRule | includes/class-visibility-frontend.php:125-160 | a stored rule without payload holds exactly when its conditional tag does |
| Frontend.StoredLoginRulesComplement | includes/class-visibility-frontend.php:137-140 | of a logged-in and a logged-out rule exactly one holds |
| Frontend.CompareTodayAfter | includes/class-visibility-frontend.php:330 | `$today > $end` on strings is exactly "end sorts before today" |
| Frontend.StoredScheduleWindow | includes/class-visibility-frontend.php:323-339 | a stored schedule holds from its start to its end date inclusive; a missing bound is open; no bounds never holds |
| Frontend.StoredDeviceRule | includes/class-visibility-frontend.php:372-385 | a stored device rule holds on mobile for 'mobile' and elsewhere for 'desktop' |
| Frontend.DeviceLooseComparison | includes/class-visibility-frontend.php:377-384 | the loose `switch` treats `true` as 'mobile'; `false`, numbers and arrays match no case |
| Frontend.StoredIdRule | includes/class-visibility-frontend.php:106-110 | a stored id reads back through `absint`, and so do the stored flags |
| Frontend.StoredPageRule | includes/class-visibility-frontend.php:171-195 | a stored page rule holds only on pages, and always on the page it names |
| Frontend.StoredTaxonomyHolds | includes/class-visibility-frontend.php:123-124 | a stored taxonomy rule is evaluated with its own taxonomy, term and flags |
| Frontend.StoredTaxonomyRule | includes/class-visibility-frontend.php:507-525 | a stored taxonomy rule needs an existing taxonomy, and holds on the archive of its term |
| Frontend.TaxonomyOwnArchive | includes/class-visibility-frontend.php:507-525 | a taxonomy rule needs an existing taxonomy and a non-zero term, and holds on that term's archive |
| Frontend.StoredUserRoleRule | includes/class-visibility-frontend.php:580-603 | a stored role rule holds exactly for a logged-in user with a non-zero id who has one of its roles |
| Frontend.StoredUrlParamRule | includes/class-visibility-frontend.php:346-365 | a stored URL rule holds when the parameter is present and, if a value was stored, carries it |
| Frontend.PageRuleScope | includes/class-visibility-frontend.php:171-195 | without options a page rule matches that page alone; options only add pages; descendants cover children when parents are ancestors |
| Frontend.CategoryIdScope | includes/class-visibility-frontend.php:206-263 | the same after `absint`, for any non-zero id |
| Frontend.CategoryRuleScope | includes/class-visibility-frontend.php:200-263 | on consistent content the category options only add matches, and descendants cover children |
| Frontend.TermRuleOptionsWiden | includes/class-visibility-frontend.php:507-575 | for taxonomy and product-category rules either option only adds matches |
| Values.Filter | includes/class-visibility-frontend.php:46-50 | `array_values(array_filter(...))` keeps exactly the passing elements and never grows the list |
| Values.FilterAll | includes/class-visibility-frontend.php:46-50 | filtering a list whose elements all pass keeps it whole |
| Php.AbsInt | includes/class-visibility-admin.php:657 | `absint`: the magnitude of `intval`, so '-5' reads as 5 |
| Php.SanitizeKey | includes/class-visibility-admin.php:595 | `sanitize_key`: the result is a key (lower-case letters, digits, '_' and '-') and no longer than its input |
| Php.SanitizeKeyIdempotent | includes/class-visibility-admin.php:595 | sanitizing a key again changes nothing |
| Php.SanitizeTextField | includes/class-visibility-admin.php:602 | the simplified `sanitize_text_field`: the result is clean text no longer than its input |
| Php.SanitizeTextFieldOfClean | includes/class-visibility-admin.php:602 | clean text is left unchanged |
| Php.Truncate | includes/class-visibility-admin.php:604-606 | the byte-length cap: at most `n` bytes, a prefix of the input, the input itself when it fits |
| Php.LeadingIntOfNatToString | includes/class-visibility-admin.php:688 | `intval` of a decimal string reads back the number that was printed |
| Php.LexLessTrichotomy | includes/class-visibility-frontend.php:326-332 | the byte-wise string order used by `<=>` relates any two different strings one way |
| Frontend.StoredEvaluatedRules | includes/class-visibility-frontend.php:40-50 | for stored data the evaluated rules are exactly the stored rules |
| Frontend.StoredResultsMet | includes/class-visibility-frontend.php:56-61 | for stored rules the combined result is "all hold" or "one holds" as `match_all` says |
| Frontend.StoredDisplay | includes/class-visibility-frontend.php:35-68 | for a stored configuration with rules the widget shows exactly when (action is show) equals (conditions met), otherwise `false` |
| Frontend.StoredVisibility | includes/class-visibility-frontend.php:40-42 | the stored action and `match_all` read back; the rules count as non-empty exactly when there are some |
| Frontend.ShownWithRules | includes/class-visibility-frontend.php:36-67 | with rules present the decision is (action is show) == (conditions met) |
| Frontend.FirstColon | includes/class-visibility-frontend.php:618 | in a cache key the first ':' follows the taxonomy |
| Frontend.CacheKeyInjective | includes/class-visibility-frontend.php:618 | distinct (taxonomy, term) pairs get distinct cache keys |
| Frontend.VisibilityFilter.constructor | includes/class-visibility-frontend.php:23-30 | a filter starts with an empty ancestor cache |
| Frontend.VisibilityFilter.GetTermAncestors | includes/class-visibility-frontend.php:610-628 | returns the term's ancestors ([] for id 0 or an empty taxonomy); the cache only grows, stays correct, and each key is looked up at most once |
| Frontend.VisibilityFilter.EvaluateCategoryRule | includes/class-visibility-frontend.php:200-263 | the loop over the post's categories computes `CategoryHolds` |
| Frontend.VisibilityFilter.EvaluateTermRule | includes/class-visibility-frontend.php:507-575 | the archive test and the loop over the post's terms compute `TermRuleHolds`, through the cache |
| Frontend.VisibilityFilter.EvaluateUserRoleRule | includes/class-visibility-frontend.php:580-603 | the loop over the selected roles computes `UserRoleHolds` |
| Frontend.VisibilityFilter.EvaluateRule | includes/class-visibility-frontend.php:104-166 | the dispatch on `type` computes `Holds` |
| Frontend.VisibilityFilter.EvaluateRules | includes/class-visibility-frontend.php:56-59 | the results loop computes `Results`, one `evaluate_rule` per rule in order |
| Frontend.VisibilityFilter.FilterWidgetDisplay | includes/class-visibility-frontend.php:35-68 | the results loop returns `Display` and keeps the cache valid |
| AdminScript.DefaultRule | assets/js/admin.js:638-663 | the default rule has the given type or 'page', an empty value, no flags, and exactly its type's extra properties |
| AdminScript.GetDefaultRule | assets/js/admin.js:638-663 | the step-by-step construction builds `DefaultRule` |
| AdminScript.TypeOf | assets/js/admin.js:589 | the type used is never empty |
| AdminScript.Normal | assets/js/admin.js:584-636 | the normal form: a non-empty type, the extra keys of that type, descendants only with children, flags only for hierarchical types, an empty value for role rules |
| AdminScript.NormalizedRule | assets/js/admin.js:584-636 | null exactly for a non-object; otherwise a normal rule of the read type: descendants imply children, flags only for hierarchical types, role rules have an empty value |
| AdminScript.NormalizeRule | assets/js/admin.js:584-636 | the step-by-step normalization computes `NormalizedRule` |
| AdminScript.ReadRoleValues | assets/js/admin.js:608-614 | a role rule's list is the stringified `values` array, else a non-empty `value`, else empty |
| AdminScript.RoleValues | assets/js/admin.js:608-614 | the stringified `values` array, else a non-empty string `value` as a one-element list, else nothing |
| AdminScript.VisibilityData | assets/js/admin.js:549-582 | the fallback `{show, false, []}` for an empty, unparsable, falsy or non-object value; otherwise action is Hide exactly for 'hide', matchAll is the truthiness of `match_all`, and the rules are the normalized object items of `rules`, in order; every rule is normal |
| AdminScript.Unreadable | assets/js/admin.js:549-562 | the cases `getVisibilityData` answers with the fallback: an empty value, a `JSON.parse` that throws, a falsy or non-object result |
| AdminScript.RuleItems | assets/js/admin.js:569 | `parsed.rules` when it is an array, else nothing |
| AdminScript.CollectNormalized | assets/js/admin.js:569-576 | the `forEach` yields one normalized rule per object item, in order, and drops the other items |
| AdminScript.GetVisibilityData | assets/js/admin.js:549-582 | the `forEach` over the parsed rules computes `VisibilityData` |
| AdminScript.ExtraKeys | assets/js/admin.js:603-628 | the extra properties never reuse a common key |
| AdminScript.CommonKeys | assets/js/admin.js:640-645 | the common properties read back |
| AdminScript.RuleJsonCommon | assets/js/admin.js:545 | a serialized rule's common properties read back |
| AdminScript.RuleJsonExtras | assets/js/admin.js:545 | a serialized rule's extra properties read back |
| AdminScript.NormalizeRuleJson | assets/js/admin.js:584-636 | normalizing a serialized normal rule gives it back |
| AdminScript.RulesJson | assets/js/admin.js:545 | rules serialize one by one, in order |
| AdminScript.DataJsonFields | assets/js/admin.js:545 | the serialized form state holds action, `match_all` and rules |
| AdminScript.CollectRulesJson | assets/js/admin.js:568-576 | the `forEach` over serialized normal rules gives them back |
| AdminScript.VisibilityDataOfJson | assets/js/admin.js:549-582 | reading back a serialized form state gives it back |
| AdminScript.VisibilityDataIdempotent | assets/js/admin.js:549-582 | reading, serializing and reading again changes nothing |
| AdminScript.HierarchyOptions.constructor | assets/js/admin.js:389-392 | the two boxes start as given |
| AdminScript.HierarchyOptions.Change | assets/js/admin.js:393-398 | checking descendants checks children, unchecking children unchecks descendants, and afterwards descendants implies children |
| AdminScript.ReplaceAll | assets/js/admin.js:693-697 | a global replace whose replacement lacks a character removes that character |
| AdminScript.ReplaceAllAppend | assets/js/admin.js:693-697 | a global replace distributes over concatenation |
| AdminScript.EscapeHtml | assets/js/admin.js:688-698 | a falsy input gives '' |
| AdminScript.EscapeChain | assets/js/admin.js:692-697 | the five global replacements in order, '&' first |
| AdminScript.Escape | assets/js/admin.js:692-697 | the character-wise escape contains no `<`, `>`, `"` or `'` |
| AdminScript.EscapeChainDistributes | assets/js/admin.js:692-697 | the five-replace chain distributes over concatenation |
| AdminScript.ReplaceAllOne | assets/js/admin.js:693 | a replace on one character replaces it or keeps it |
| AdminScript.ReplaceAllAbsent | assets/js/admin.js:693 | a replace of an absent character changes nothing |
| AdminScript.LaterStagesKeep | assets/js/admin.js:693-697 | an entity one replace writes passes the later replaces unchanged |
| AdminScript.EscapeChainPlain | assets/js/admin.js:692-697 | the chain keeps an ordinary character |
| AdminScript.EscapeChainSpecial | assets/js/admin.js:692-697 | the chain turns each special character into its own entity, `&` first so no entity is escaped twice |
| AdminScript.EscapeChainChar | assets/js/admin.js:692-697 | the chain on one character is its entity or itself |
| AdminScript.EscapeChainIsEscape | assets/js/admin.js:692-697 | the replace chain equals character-wise escaping |
| AdminScript.EscapeHtmlIsSafe | assets/js/admin.js:688-698 | `escapeHtml` output contains no `<`, `>`, `"` or `'` |
| AdminScript.UnescapePlain | assets/js/admin.js:692-697 | decoding passes an ordinary character |
| AdminScript.UnescapeSpecial | assets/js/admin.js:692-697 | decoding turns each entity back into its character |
| AdminScript.UnescapeEntity | assets/js/admin.js:692-697 | decoding undoes one escaped character |
| AdminScript.UnescapeEscape | assets/js/admin.js:692-697 | decoding undoes escaping |
| AdminScript.EscapeHtmlRoundTrip | assets/js/admin.js:688-698 | for a truthy input, decoding `escapeHtml` gives back `String(text)` |
| ImportExport.LastDash | includes/class-visibility-import-export.php:208 | finds the last '-' (the greedy `.+` split), or reports there is none |
| ImportExport.ParseWidgetId | includes/class-visibility-import-export.php:207-219 | the two captures of `/^(.+)-(\d+)$/`: split at the last '-', a base without line break, one or more digits, an optional final line break |
| ImportExport.ParseWidgetIdSound | includes/class-visibility-import-export.php:208 | what the split returns matches `/^(.+)-(\d+)$/` with those captures |
| ImportExport.ParseWidgetIdComplete | includes/class-visibility-import-export.php:208 | every match of the pattern is found with the same captures |
| ImportExport.LastDashBeforeDigits | includes/class-visibility-import-export.php:208 | a '-' followed only by digits is the last one |
| ImportExport.WidgetIdBase | includes/class-visibility-import-export.php:207-212 | a base found is non-empty and has no line break |
| ImportExport.WidgetNumber | includes/class-visibility-import-export.php:214-219 | the `(int)` of the captured digits, or nothing when the id does not match |
| ImportExport.WidgetIdRoundTrip | includes/class-visibility-import-export.php:207-219 | `base-number` splits back into that base and number |
| ImportExport.SetMember | includes/class-visibility-import-export.php:200 | setting a member yields a keyed array |
| ImportExport.SetMemberReads | includes/class-visibility-import-export.php:200 | the member set reads back; the widget's other settings are untouched |
| ImportExport.SetEntryReads | includes/class-visibility-import-export.php:200 | only the chosen widget's settings change |
| ImportExport.ApplyEntry | includes/class-visibility-import-export.php:183-203 | an applied entry adds no option |
| ImportExport.ApplyEntryEffect | includes/class-visibility-import-export.php:184-201 | an applied entry stores its visibility, unsanitized, in the targeted widget and changes no other option, widget or setting |
| ImportExport.ApplyAll | includes/class-visibility-import-export.php:181-205 | the count is at most the number of entries and no option is added |
| ImportExport.ApplySkipped | includes/class-visibility-import-export.php:184-186 | entries that are not arrays change nothing and count nothing |
| ImportExport.ImportRejected | includes/class-visibility-import-export.php:119-128 | the import gives up on a file over 512000 bytes or a document without a `widgets` array |
| ImportExport.EntriesJson | includes/class-visibility-import-export.php:167-173 | the export entries serialize one by one, in order |
| ImportExport.WidgetExport | includes/class-visibility-import-export.php:155-174 | a placed widget contributes at most one entry |
| ImportExport.SidebarPairs | includes/class-visibility-import-export.php:151 | the sidebar loop visits each sidebar once |
| ImportExport.SidebarExport | includes/class-visibility-import-export.php:151-176 | a sidebar contributes nothing when it is the inactive area or not an array, else the exports of its widgets in order |
| ImportExport.Exported | includes/class-visibility-import-export.php:136-179 | the exported `widgets` list: the sidebar exports in order; `ImportExport.ExportedValid` proves every entry valid |
| ImportExport.WidgetExportValid | includes/class-visibility-import-export.php:155-174 | each entry one widget contributes describes its stored visibility |
| ImportExport.ExportedValid | includes/class-visibility-import-export.php:151-176 | every exported entry comes from an active sidebar, has an id that splits into its base and number, and holds a stored visibility with rules |
| ImportExport.ImportOfExportDocument | includes/class-visibility-import-export.php:119-128 | an export document of at most 512000 bytes passes the import guards and hands over its entries |
| ImportExport.EntryJsonFields | includes/class-visibility-import-export.php:167-173 | an exported entry's `id_base`, `number` and `visibility` read back |
| ImportExport.ImportOfExportedEntry | includes/class-visibility-import-export.php:184-200 | an exported entry is applied, to the option and number it came from, with its visibility |
| ImportExport.WidgetStore.constructor | includes/class-visibility-import-export.php:195 | a store starts with the given options |
| ImportExport.WidgetStore.ApplyVisibilityData | includes/class-visibility-import-export.php:181-205 | the loop computes `ApplyAll`: the count is at most the number of entries, and no option is added |
| ImportExport.WidgetStore.ApplyEntryTo | includes/class-visibility-import-export.php:183-201 | one pass of the import loop applies the entry exactly when `ApplyEntry` does, with its result |
| ImportExport.WidgetStore.HandleImport | includes/class-visibility-import-export.php:101-134 | a document is refused (options unchanged) exactly when over 512000 bytes or without a `widgets` array; otherwise its entries are applied |
| ImportExport.WidgetStore.CollectSidebar | includes/class-visibility-import-export.php:151-176 | the loop over one sidebar's widgets computes `SidebarExport`, nothing for the inactive sidebar |
| ImportExport.WidgetStore.CollectVisibilityData | includes/class-visibility-import-export.php:136-179 | the nested loops compute `Exported` |
| Presets.PresetArray | includes/class-visibility-presets.php:98-101 | the presets are the option's members, in order; a non-array reads as empty |
| Presets.Keys | includes/class-visibility-presets.php:66 | the names of the stored presets, in order |
| Presets.IndexedUnique | includes/class-visibility-presets.php:98-101 | a list-shaped option has unique names |
| Presets.SetKeyReads | includes/class-visibility-presets.php:48-51 | the saved name reads back, other names keep their presets, an overwrite keeps the order, names stay unique |
| Presets.RemoveKey | includes/class-visibility-presets.php:91 | removing never adds, and no kept preset has the removed name |
| Presets.RemoveKeyReads | includes/class-visibility-presets.php:91 | removing keeps every other name's preset |
| Presets.RemoveKeyAbsent | includes/class-visibility-presets.php:90-93 | removing a missing name changes nothing |
| Presets.RemoveKeyCount | includes/class-visibility-presets.php:90-92 | with unique names, removing a present name drops exactly one preset, and names stay unique |
| Presets.RemoveKeyFrom | includes/class-visibility-presets.php:91 | what is left after removing was stored before |
| Presets.PresetList | includes/class-visibility-presets.php:103-114 | one list entry per stored preset |
| Presets.PresetEntry | includes/class-visibility-presets.php:106-112 | a listed preset has its name, its `data` or `[]`, and its `created` or '' |
| Presets.PostedName | includes/class-visibility-presets.php:30 | the posted name after `sanitize_text_field`, '' when none was posted |
| Presets.PostedData | includes/class-visibility-presets.php:35-38 | data not posted or posted as '' reads as null (`json_decode('')`); a non-string posting is kept; other text is its decoding |
| Presets.SaveOutcome | includes/class-visibility-presets.php:23-55 | the refusals in order (unauthorized, bad name, non-array data, 50 presets), else the option with the preset set under its name and the new list; `Presets.SaveOutcomeRefusals` and `Presets.SaveStores` state it |
| Presets.DeleteOutcome | includes/class-visibility-presets.php:77-96 | the refusals (unauthorized, empty name), else the option without that preset and the new list; `Presets.DeleteRemoves` states it |
| Presets.SaveOutcomeRefusals | includes/class-visibility-presets.php:26-46 | a refused save changes nothing; a save succeeds exactly when authorized, with a name of 1 to 100 bytes, array data and fewer than 50 presets |
| Presets.SaveStores | includes/class-visibility-presets.php:48-53 | a save stores the preset under its name, overwriting in place, and keeps every other preset |
| Presets.SaveKeepsCap | includes/class-visibility-presets.php:43-53 | a store of at most 50 presets stays within 50 |
| Presets.PresetEntryOfValue | includes/class-visibility-presets.php:107-111 | a saved preset is listed with its data and creation time |
| Presets.ListedEntry | includes/class-visibility-presets.php:106-112 | every stored preset appears in the list |
| Presets.SavedPresetListed | includes/class-visibility-presets.php:48-54 | the response to a save lists the saved preset |
| Presets.DeleteRemoves | includes/class-visibility-presets.php:77-96 | a delete is refused exactly when unauthorized or the name is empty; it removes exactly the named preset; a missing name changes nothing |
| Presets.DeleteKeepsCap | includes/class-visibility-presets.php:89-93 | deleting never grows the store and keeps names unique |
| Presets.PresetStore.constructor | includes/class-visibility-presets.php:98-101 | a store over an option without repeated names is valid |
| Presets.PresetStore.GetPresetList | includes/class-visibility-presets.php:103-114 | the loop computes `PresetList` |
| Presets.PresetStore.LoadPresets | includes/class-visibility-presets.php:57-75 | an authorized load returns the list, otherwise 'Unauthorized' |
| Presets.PresetStore.SavePreset | includes/class-visibility-presets.php:23-55 | the new option and response are `SaveOutcome`, and names stay unique |
| Presets.PresetStore.DeletePreset | includes/class-visibility-presets.php:77-96 | the new option and response are `DeleteOutcome`, and names stay unique |

## Left out

- Hook registration, nonces (`check_ajax_referer`, `check_admin_referer`), HTTP responses, redirects and `exit`. Capability checks are a boolean parameter of the preset endpoints; in `handle_import` they and the upload checks (lines 102-116) are not modelled.
- The export download handler, `render_visibility_ui`, `save_visibility_settings`, `enqueue_assets` and the option lists built for the form (titles, `str_repeat` prefixes, `hasChildren`) are left out. Of `get_categories` and `get_woo_product_categories` only the `$seen` depth walk is modelled.
- Reading the widget options, post ancestors, terms, the current user and the date is not modelled as I/O. These become parameters: `Admin.Site`, `Frontend.Request`, `Frontend.Content`, the options map of `WidgetStore`, the `now` and `version` strings.
- `get_user_roles` is given as the list of registered role slugs, in the order it returns them. Its label translation and sorting by title only decide that order.
- `json_decode`, `JSON.parse` and `JSON.stringify` text are not modelled. Documents are taken as decoded values: a parse failure is `None`, and what `json_decode` makes of a posted preset string is a parameter.
- `Php.SanitizeTextField`: models `sanitize_text_field` only as dropping control characters and `<`, `>`. Tag stripping, percent-encoded octets, whitespace collapsing, trimming and UTF-8 checks are left out.
- `Php.IntVal`: no floats, exponents or 64-bit saturation. Decoded JSON has no floating-point numbers. `ImportExport.WidgetNumber` likewise does not saturate `(int)` of a very long digit string.
- PHP strings are byte strings: each byte is one `char`, so `strlen` is the sequence length. Multi-byte text is not decoded.
- `wp_unslash` is taken as the identity. A `$_GET` parameter that is an array is left out: the query is a map from names to strings.
- `function_exists` guards are folded into the request's booleans. `wp_is_mobile` is assumed to exist.
- PHP turns a numeric-string array key into an integer. For preset names this is not modelled (a name stays a string), nor for `$option[$number]`, whose decimal string and integer forms are treated as one key.
- The admin script's `undefined` and `null` are one value. Serialization back to JSON is modelled for rules in normal form only.
- `ImportExport.SetMember`: writing into a widget entry that is a scalar makes it a one-member array. PHP turns only null and false into an array that way; for true, a number or any string (including '') it raises an error, which the model does not represent.
- A widget id that is not a string is treated as not matching the pattern.
- Concurrent requests and option write races are left out.
- The debug class (`includes/class-visibility-debug.php`) is not part of this model.
