# custom-post-type — a Dafny model

This project models the core of the 93digital `custom-post-type` helper for
WordPress. The helper is a thin layer over the host's post-type and taxonomy
registration. The model covers two PHP classes.

`Nine3\PostType` in `cpt.php` (module `PostTypes`, file `post_type.dfy`):

- The constructor derives the post-type name and plural. It fills in the
  option defaults: the archive flag and its slug, the admin visibility flags,
  `supports`, `menu_icon` and `show_in_rest`.
- `taxonomy()` checks a taxonomy slug against the reserved words `month`,
  `year`, `category` and `tag`. If the slug is allowed, it records the
  taxonomy in a registry shared by all post types.
- The query builders are `get_posts`, `get_posts_by_term`,
  `get_posts_by_terms` and `get_posts_by_meta`.
- The `__call` dispatcher turns `get_posts_by_<taxonomy>(...)` into a term
  query.
- The remaining operations are `have_posts`, `set_order` and the meta-box
  list.

`Taxonomy` in `inc/Taxonomy.php` (module `Taxonomies`, file `taxonomy.dfy`):

- It generates the singular and plural labels and the slug from a taxonomy
  name.
- It builds the table of 17 admin labels.
- It merges the caller's options over the defaults with
  `array_replace_recursive`.

Two supporting modules model the PHP built-ins these classes use:

- `php.dfy` (module `Php`) holds arrays, `isset`, `empty`, `array_merge`,
  `array_replace_recursive` and string conversion.
- `strings.dfy` (module `Strings`) holds `strtolower`, `ucwords`,
  `str_replace` and the case-insensitive prefix test.

A PHP array is an ordered dictionary, modelled as a sequence of key/value
pairs in insertion order:

- Assigning to an existing key keeps its position; assigning to a new key
  appends it.
- `$a[] = v` uses the next free integer key.
- `array_merge` overwrites string keys and renumbers integer keys.

Several parts come from outside the two classes and are taken as parameters
or left out:

- The host's `sanitize_title` is a function the caller supplies.
- A query is represented by the argument array it is built from.
- Registering a meta box is represented by the `add_meta_box` call that would
  be made.
- `__` (translation) is taken as the identity, so each label is its template
  with `%s` replaced by the name.

The `has_archive` block of the constructor contains an unresolved merge
between two versions, marked `HEAD` and `master`. Both are modelled, and
`ArchiveBranch` selects one. The class extends `PostType\Post_Type` from
`inc/PostType.php`, which is not part of this model. The model therefore
treats these two things as inputs:

- the post-type name is the lower-cased sanitised singular, which the
  constructor passes to the parent as `name`;
- the `taxonomies` list the dispatcher reads belongs to the parent: its
  initial value is a constructor argument, and the parent's `taxonomy`
  (cpt.php:238) is a supplied function `parentTaxonomy` giving the new list.

Where the class's own documentation and its code disagree, the model
follows the code: the class comment says a post type whose singular name
ends in `s` is refused (cpt.php:25-26), but no code performs that check
(cpt.php:119-208). The dispatcher checks the parent's `taxonomies` list
(cpt.php:305) and never reads the static registry. The class writes the
registry when a taxonomy is added (cpt.php:240) and hands it out through
`get_all_taxonomies()` (cpt.php:441-443), for a "Load More" feature outside
these files (cpt.php:73-76).

## Model

| member | source | states |
|---|---|---|
| `Taxonomies.Normalize` | inc/Taxonomy.php:90-92 | a bare name becomes an array whose only key is `name`; an array of names is used as it is |
| `Taxonomies.Taxonomy.SetNames` | inc/Taxonomy.php:89-128 | `singular`, `plural` and `slug` each take the caller's value when one is given, and otherwise the value generated from `name` |
| `Taxonomies.SuppliedNameKept` | inc/Taxonomy.php:121-123 | a name the caller supplies is stored verbatim |
| `Taxonomies.GeneratedSingular` | inc/Taxonomy.php:107-108 | a generated singular label has the name's length; `_` and `-` become spaces, letters are lower-cased, and each word's first letter is upper-cased; the label holds no `_` and no `-` |
| `Taxonomies.GeneratedPlural` | inc/Taxonomy.php:110-113 | a generated plural is the name-derived label plus `s`, even when the caller supplied its own singular; it always ends in `s` |
| `Taxonomies.GeneratedSlug` | inc/Taxonomy.php:116-118 | a generated slug is the lower-cased name with spaces and underscores turned into `-`; it holds no space, no underscore and no upper-case letter |
| `Taxonomies.PluralLabels` | inc/Taxonomy.php:138-156 | each of the eleven plural labels found under its key is its template filled with the plural, including the misspelt "Seperate %s with commas" |
| `Taxonomies.SingularLabels` | inc/Taxonomy.php:138-156 | each of the six singular labels found under its key is its template filled with the singular |
| `Taxonomies.LabelsFirstMatch` | inc/Taxonomy.php:138-156 | every entry of the label table is what a lookup of its key returns, so no label is shadowed by an earlier key |
| `Taxonomies.MergedOptionsKeepDefaults` | inc/Taxonomy.php:159-168 | where the caller's options say nothing about them, the merged options keep `hierarchical = true` and `rewrite.slug` equal to the taxonomy's slug |
| `Taxonomies.MergedLabel` | inc/Taxonomy.php:159-168 | a label the caller's options leave alone is the default label |
| `Taxonomies.Taxonomy.SetOptions` | inc/Taxonomy.php:135-169 | the options become the caller's options merged recursively over the label, hierarchy and rewrite defaults |
| `Taxonomies.Taxonomy.constructor` | inc/Taxonomy.php:76-82 | the text domain is `cpt`; the names are set as `SetNames` states, then the options as `SetOptions` states |
| `Taxonomies.Taxonomy.SetTextdomain` | inc/Taxonomy.php:176-178 | replaces the text domain and nothing else |
| `Php.ReplaceRecursiveGet` | inc/Taxonomy.php:168 | lookup in `array_replace_recursive`: the base's value unless the replacement has the key; when it does, the two arrays are merged recursively, or else the replacement's value wins |
| `Php.CallerValueWins` | inc/Taxonomy.php:168 | a non-array value the caller's options hold at any nested path is the merged value there |
| `Php.UntouchedDefaultSurvives` | inc/Taxonomy.php:168 | where the caller's options provide nothing along a path, the merged options hold the default's value |
| `Php.ArrayMergeNamed` | cpt.php:278 | `array_merge` on string keys: the second array's value wins, and a key it lacks keeps the first array's value |
| `PostTypes.DefaultArchive` | cpt.php:132-147 | `has_archive` ends as `ArchiveOption` says for the chosen branch; every other option is unchanged |
| `PostTypes.DefaultVisibility` | cpt.php:172-180 | a non-public post type gets `show_ui` and `show_in_nav_menus` set to true unless the caller set them; nothing else changes |
| `PostTypes.PrepareOptions` | cpt.php:132-196 | after defaulting: `supports` is the caller's value or the four default features when empty; `menu_icon` is the caller's or `dashicons-format-aside`; `show_in_rest` is true unless set; the visibility and archive options are as above; every other option is the caller's |
| `PostTypes.PostType.constructor` | cpt.php:119-208 | the post-type name is the lower-cased sanitised singular; the plural defaults to singular + `s`; the options satisfy `OptionsDefaulted`; the order is `date`/`DESC`; no meta boxes and no query yet; the parent's hook and initial `taxonomies` are the ones supplied |
| `PostTypes.RegisterTaxonomyAsWritten` | cpt.php:219-241 | as the code is written: the registration fails exactly when the sanitised name is reserved, whatever the options say |
| `PostTypes.ReservedSlugOptionSlipsThrough` | cpt.php:223-226 | `taxonomy('genre', null, ['slug' => 'tag'])` is accepted as written and rejected once the check reads the options |
| `PostTypes.AsWrittenIgnoresOptions` | cpt.php:223 | as written, the options never change the outcome; the as-written and corrected versions agree whenever no `slug` option is set |
| `PostTypes.RegisterTaxonomy` | cpt.php:219-241 | fails exactly when the slug checked (the `slug` option if set, else the name) is reserved, with the error naming the sanitised name; otherwise yields the name, the singular, and the plural, which defaults to the sanitised name + `s` |
| `PostTypes.Registry.constructor` | cpt.php:81 | the registry starts empty |
| `PostTypes.Registry.Record` | cpt.php:240 | the map afterwards is the old map with this post type's list extended by one entry, so no other key appears or changes |
| `PostTypes.PostType.Taxonomy` | cpt.php:219-241 | the result is `RegisterTaxonomy`'s; an accepted taxonomy is handed to the parent, which gives the new `taxonomies`, and is appended to this post type's registry list; a rejected one changes neither, and other post types' lists are untouched |
| `PostTypes.BaseArgsShape` | cpt.php:253-262 | the base arguments hold exactly `post_type`, `no_found_rows = true`, `orderby` and `order`, each key once |
| `PostTypes.CachedArgsShape` | cpt.php:265-272 | `update_post_meta_cache = false` is added unless the custom arguments set both `meta_key` and `tax_query` |
| `PostTypes.OwnArgsShape` | cpt.php:253-276 | the arguments before merging: the base keys, the cache flag as above, and `posts_per_page` exactly when the limit is not 0; no other key |
| `PostTypes.QueryArgsSpec` | cpt.php:252-282 | each computed argument is the custom argument's value when one is given, and the computed default otherwise; every other string-keyed custom argument is passed through unchanged |
| `PostTypes.PostType.GetPosts` | cpt.php:252-282 | returns the query arguments for the current post type and order, and remembers them as the last query |
| `PostTypes.TermQuerySpec` | cpt.php:321-336 | a term query has limit -1 and a single `IN` clause over the terms, with a scalar wrapped in a list; the caller's `posts_per_page`, `post_type` and cache settings win, and the meta cache is off unless the caller sets `meta_key` |
| `PostTypes.PostType.GetPostsByTerm` | cpt.php:321-336 | runs `get_posts(-1, args)` with `tax_query` set to the one-clause query |
| `PostTypes.BuildTaxQuery` | cpt.php:345-356 | the tax query is `relation` followed by one clause per taxonomy in input order, the clause for taxonomy i at integer key i, with field `slug` and operator `IN` |
| `PostTypes.TermsTaxQueryLookup` | cpt.php:345-356 | in the built tax query, `relation` looks up the relation and key i looks up the i-th taxonomy's clause |
| `PostTypes.PostType.GetPostsByTerms` | cpt.php:344-361 | runs `get_posts(-1, args)` with `tax_query` set to the built tax query |
| `PostTypes.MetaQuerySpec` | cpt.php:371-379 | a meta query passes key, value and comparison through, always switches the meta cache off, and limits exactly when the limit is not 0 |
| `PostTypes.PostType.GetPostsByMeta` | cpt.php:371-379 | runs `get_posts(limit, …)` with the meta key, value and comparison |
| `PostTypes.SanitizedAll` | cpt.php:305 | `array_map('sanitize_title', …)`: same length, each element sanitised in place |
| `PostTypes.Dispatch` | cpt.php:300-313 | a call is dispatched if and only if its name starts with `get_posts_by_` ignoring case and its derived key is a sanitised registered taxonomy; the target is the derived key |
| `PostTypes.CallKeyOfPrefixedName` | cpt.php:301-304 | `get_posts_by_<rest>` passes the prefix test, and its key is `rest` with `_` turned into `-`, when `rest` does not itself contain the prefix |
| `PostTypes.RegisteredTaxonomyDispatches` | cpt.php:300-309 | `get_posts_by_<rest>` dispatches to `rest` with `_` turned into `-` whenever a registered taxonomy sanitises to that key |
| `PostTypes.GenreCallDispatches` | cpt.php:286-309 | the documented example: once `genre` is among the registered taxonomies and sanitises to itself, `get_posts_by_genre` is dispatched to `genre` |
| `PostTypes.CasedPrefixKept` | cpt.php:301-304 | a name without a literal lower-case prefix keeps its whole text in the key, so `Get_Posts_By_genre` passes the test but derives key `Get-Posts-By-genre` |
| `PostTypes.PostType.Call` | cpt.php:300-313 | a dispatched call runs a term query on the target with the call's arguments as terms; any other call is a "method not found" error and runs no query |
| `PostTypes.PostType.HavePosts` | cpt.php:402-416 | when no query has run, the default query runs first; an existing query is kept; the answer is the host's answer for the last query |
| `PostTypes.PostType.SetOrder` | cpt.php:431-434 | sets `orderby` and `order`, which defaults to `ASC` |
| `PostTypes.PostType.AddMetaBox` | cpt.php:477-484 | appends one meta box; context defaults to `normal` and priority to `low` |
| `PostTypes.PostType.AddSidebarMetaBox` | cpt.php:493-495 | appends one meta box with context `side` |
| `PostTypes.PostType.RegisterMetaBoxes` | cpt.php:459-465 | one host call per meta box, in the order added; the id is the post-type name followed by the sanitised title, and the screen is the post type |
| `Strings.Lower` | cpt.php:121 | `strtolower`: same length, each character lower-cased |
| `Strings.UcWords` | inc/Taxonomy.php:108 | `ucwords`: the first character of each word is upper-cased and the rest are kept |
| `Strings.RemoveAllAbsent` | cpt.php:303 | removing a substring that does not occur leaves the string unchanged |
| `Taxonomies.NameFor` | inc/Taxonomy.php:104-123 | definition without a contract of its own: the caller's name for a role, else the generated one; characterised by `SuppliedNameKept`, `GeneratedSingular`, `GeneratedPlural` and `GeneratedSlug` |
| `Taxonomies.Spaced` | inc/Taxonomy.php:108 | definition without a contract of its own: underscores, then hyphens, become spaces; characterised by `GeneratedSingular` |
| `Taxonomies.Humanize` | inc/Taxonomy.php:108 | definition without a contract of its own: the human-friendly label; characterised character by character by `GeneratedSingular` |
| `Taxonomies.Slugify` | inc/Taxonomy.php:117 | definition without a contract of its own; characterised character by character by `GeneratedSlug` |
| `Taxonomies.Labels` | inc/Taxonomy.php:138-156 | definition without a contract of its own: the 17-entry label table; characterised by `PluralLabels`, `SingularLabels` and `LabelsFirstMatch` |
| `Taxonomies.Defaults` | inc/Taxonomy.php:159-165 | definition without a contract of its own: labels, `hierarchical = true`, `rewrite.slug`; characterised through `MergedOptionsKeepDefaults` and `MergedLabel` |
| `Taxonomies.MergedOptions` | inc/Taxonomy.php:168 | definition without a contract of its own: the recursive merge of the caller's options over the defaults; characterised by `MergedOptionsKeepDefaults`, `MergedLabel`, and `Php.CallerValueWins` |
| `Php.Set` | cpt.php:141 | assignment to an element: afterwards the key holds the value, every other key holds what it held, an existing key leaves the length unchanged, and a new key is appended at the end |
| `Php.Push` | cpt.php:350-355 | appending without a key adds one entry at the end under an integer key not yet used, keeping keys distinct |
| `Php.ArrayMerge` | cpt.php:278 | definition without a contract of its own; characterised on string keys by `ArrayMergeNamed` |
| `Php.ReplaceRecursive` | inc/Taxonomy.php:168 | definition without a contract of its own; characterised by `ReplaceRecursiveGet`, `CallerValueWins` and `UntouchedDefaultSurvives` |
| `PostTypes.IsPublic` | cpt.php:132 | definition without a contract of its own: public unless `public` is set to a falsy value; used by `OptionsDefaulted` |
| `PostTypes.OpensArchive` | cpt.php:133 | definition without a contract of its own: the guard of the archive block; used by `ArchiveOption` |
| `PostTypes.ArchiveOption` | cpt.php:133-147 | definition without a contract of its own: the resulting `has_archive` for each version of the block; `DefaultArchive` is proved against it |
| `PostTypes.OptionsDefaulted` | cpt.php:132-196 | definition without a contract of its own: the key-by-key statement of the defaulting; `PrepareOptions` and the constructor are proved against it |
| `PostTypes.CheckedSlug` | cpt.php:223 | definition without a contract of its own: the `slug` option sanitised when set, else the sanitised name; used by `RegisterTaxonomy` |
| `PostTypes.IsReserved` | cpt.php:98-103 | definition without a contract of its own: membership in the four reserved slugs; used by `RegisterTaxonomy` and `RegisterTaxonomyAsWritten` |
| `PostTypes.NamesFor` | cpt.php:220-236 | definition without a contract of its own: name, singular and plural, with the plural defaulting to the sanitised name + `s`; used in the ensures of `RegisterTaxonomy` |
| `PostTypes.BaseArgs` | cpt.php:253-262 | definition without a contract of its own; characterised by `BaseArgsShape` |
| `PostTypes.CachedArgs` | cpt.php:265-272 | definition without a contract of its own; characterised by `CachedArgsShape` |
| `PostTypes.OwnArgs` | cpt.php:253-276 | definition without a contract of its own; characterised by `OwnArgsShape` |
| `PostTypes.QueryArgs` | cpt.php:253-278 | definition without a contract of its own; characterised by `QueryArgsSpec`; `GetPosts` is proved against it |
| `PostTypes.WrapTerms` | cpt.php:322-324 | definition without a contract of its own: a scalar becomes a one-element list; used by `TermQuerySpec` |
| `PostTypes.TermClause` | cpt.php:326-333 | definition without a contract of its own: taxonomy, field, terms and operator `IN`; used by `TermQuerySpec` and `BuildTaxQuery` |
| `PostTypes.TermArgs` | cpt.php:322-333 | definition without a contract of its own; characterised by `TermQuerySpec`; `GetPostsByTerm` is proved against it |
| `PostTypes.TermsTaxQuery` | cpt.php:345-356 | definition without a contract of its own; characterised by `TermsTaxQueryLookup`; `BuildTaxQuery` and `GetPostsByTerms` are proved against it |
| `PostTypes.MetaArgs` | cpt.php:372-376 | definition without a contract of its own; characterised by `MetaQuerySpec` |
| `PostTypes.CallTaxonomy` | cpt.php:303-304 | definition without a contract of its own: the key derived from a call name; characterised by `CallKeyOfPrefixedName` and `CasedPrefixKept` |
| `PostTypes.MetaBoxCallFor` | cpt.php:461-463 | definition without a contract of its own: the host call for one meta box; `RegisterMetaBoxes` is proved against it |
| `Strings.Replace` | cpt.php:304 | one-character `str_replace`: same length, each occurrence of the searched character replaced and every other character kept |
| `Strings.RemoveAll` | cpt.php:303 | definition whose only contract is that the result is no longer than the input; characterised by `RemoveAllLeading` and `RemoveAllAbsent` |
| `Strings.StartsWithIgnoringCase` | cpt.php:301 | definition without a contract of its own: the prefix matches after lower-casing both; used by `Dispatch` and `CallKeyOfPrefixedName` |

## Left out

- The host calls, represented instead of modelled:
  - `WP_Query` is represented by its argument array.
  - `the_post`, `wp_reset_postdata` and the `$reset` argument of `have_posts` only act on the host's loop state, so they are left out.
  - `PostTypes.PostType.HavePosts`: the host's answer is a function `hasPosts` of the query arguments only, so repeated calls with the same last query give the same answer; the real answer also depends on the loop cursor that `the_post` moves forward.
  - `add_action` in the constructor.
  - The ACF options page (`function_exists`, `acf_add_options_page`, cpt.php:160-169).
  - `parent::__construct` and `parent::taxonomy`, whose effects live in `inc/PostType.php`; that file is not part of this model.
- `wp_query()` and `get_all_taxonomies()` only return modelled state: `lastQuery` and `Registry.lists`. `Registry.lists` is a map, so the order in which post types first registered a taxonomy, which `get_all_taxonomies()` (cpt.php:441-443) returns, is not kept; the order of each post type's own list is.
- `sanitize_title` and `__` are not defined: `sanitize_title` is an arbitrary supplied function, and `__` is the identity, so the text domain has no effect on the labels.
- `PostTypes.PostType.Call`: the code at cpt.php:312 calls an undefined `error()`, which raises a different PHP error than the intended "method not found". Both are failures; the model returns `MethodNotFound`.
- `PostTypes.RegisterTaxonomy`: cpt.php:225 throws `new Exception(...)` inside `namespace Nine3`, where the name resolves to `Nine3\Exception`, which is not defined in these files, so as written PHP raises a class-not-found error instead. `ReservedTaxonomy(name)` stands for whatever is thrown there.
- PHP's conversion of numeric-string keys to integer keys is not modelled, so `"5"` stays a string key. Floats and objects are not PHP values here.
- `in_array` uses loose comparison, under which numeric strings compare as numbers. The model compares strings exactly.
- `Taxonomies.Normalize`: the values of a names array are strings only, so a null entry, which `isset` treats as missing, cannot be expressed.
- Case mapping (`strtolower`, `ucwords`, `stripos`) is ASCII-only, as in PHP 8.2 and later; earlier versions follow the C library's locale.
- `Php.ArrayMergeNamed` describes string keys only. Integer keys are appended renumbered by the model but no lemma states it.
- `PostTypes.QueryArgsSpec`: states the string keys of the query arguments only; a custom argument under an integer key is renumbered by `array_merge` (cpt.php:278), which the model computes but no lemma states.
- `PostTypes.PostType.Taxonomy`: the parent's update of `taxonomies` (cpt.php:238) is not modelled, because inc/PostType.php is not part of this model; it is the supplied `parentTaxonomy`, and the list's initial value is a constructor argument.
- The prose's requirement that a singular name must not end in `s` is not modelled, because no code enforces it.

## Findings

| source | as written | input that shows it | evidently intended | confidence | as-written member | corrected member |
|---|---|---|---|---|---|---|
| cpt.php:223 | the reserved-slug check reads `$option['slug']`, an undefined variable, so it always tests the sanitised name | `taxonomy('genre', null, array('slug' => 'tag'))` with `sanitize_title` the identity on these words: accepted | test the `slug` option from `$options` when it is set, so a reserved slug is refused | medium, not executed | `PostTypes.RegisterTaxonomyAsWritten`, `PostTypes.ReservedSlugOptionSlipsThrough` | `PostTypes.RegisterTaxonomy` (used by `PostTypes.PostType.Taxonomy`) |
