# Big Games Shop Product Redirect — a verified model

The plugin lets a WooCommerce shop manager pick a redirect URL for each product.
The choices come from a remote catalog API. The plugin caches the catalog in the transient
`pr_api_data` and shows it as a nested `<select>`, in a product-edit metabox and in an
extra column of the product list. It stores the choice in the product's `_pr_redirect_url`
meta field. When a visitor opens a single-product page whose stored URL is not empty,
the plugin redirects them there.

This Dafny project models the plugin's logic in `petshop-product-redirect.php`:

- `catalog.dfy` (`Catalog`): the decoded JSON tree (category → children → products). Any node may be a
  non-array, and any key may be missing. The module also gives reference views of the tree: the
  well-formed products in tree order, and the headings.
- `dropdown.dfy` (`Dropdown`): `pr_build_dropdown`. Its three nested loops append option records. They
  are proved to produce `Options`, the specification. The lemmas relate `Options` to the catalog's
  reference views. The HTML text of each record is given separately, with escaping left to the host.
- `cache.dfy` (`Cache`): `pr_get_api_data` as a read-through cache over one optional transient entry.
  `ReadThrough` is its state transition, and there are lemmas about sequences of calls.
- `settings.dfy` (`Settings`): `pr_get_plugin_settings`, which gives the option defaults and the
  expiration in seconds.
- `columns.dfy` (`Columns`): `pr_add_product_column`, an insertion into a PHP ordered array.
- `handlers.dfy` (`Handlers`): the AJAX update, the metabox save and the storefront redirect decision.
- `settings_page.dfy` (`SettingsPage`): the processing of the settings form, including the finding below.
- `wordpress.dfy`, `actions.dfy`, `php.dfy`, `wrappers.dfy`: the host's functions (as uninterpreted
  parameters), the post-meta store, the nonce action strings, the PHP semantics used (integer to
  decimal text, `absint`, `empty()`), and `Option`.

All of these follow the code where it differs from the plugin's design description:

- Nothing checks the two feature flags, or whether the catalog is available, before redirecting.
  Neither exists in the code.
- A response body that is neither a JSON array nor a JSON object (so not a PHP array once decoded)
  is cached as an empty catalog for the full TTL. A JSON object is treated like an array of its
  member values, in order.
  Only a transport error leaves the cache empty.
- `empty()` is PHP's: a stored URL of `"0"` does not redirect.
- `===` is strict: a JSON url that is not a string never matches the selection. A product whose
  url is `""` is marked selected when the selection is `""`.

## Model

| member | source | states |
|---|---|---|
| `Settings.GetPluginSettings` | petshop-product-redirect.php:27-35 | the URL is the saved option or the default URL; the expiration is exactly the saved hours (default 1) times 3600 |
| `Settings.DefaultExpirationIsOneHour` | petshop-product-redirect.php:29-30 | a corollary of `GetPluginSettings`: with no hours saved, the catalog is cached for 3600 seconds |
| `Cache.ReadThrough` | petshop-product-redirect.php:46-69 | a hit returns the cached catalog without fetching and leaves the entry; a miss fetches the configured URL; nothing is stored iff a miss meets a transport error, and the result is then empty; what is stored is what is returned, with the configured expiration; a non-array body is stored as the empty catalog |
| `Cache.GetApiData` | petshop-product-redirect.php:46-69 | the returned catalog, the fetched URL and the new transient are those of `ReadThrough` from the old transient and the current settings |
| `Cache.StoredEntryServesEveryCall` | petshop-product-redirect.php:51-53 | while an entry is stored, every call returns its payload unchanged and none fetches |
| `Cache.FetchesUntilFirstResponse` | petshop-product-redirect.php:53-65 | from an empty transient, calls fetch until one gets a body (array or not), so a failing endpoint is asked on every call; after that, none fetches |
| `Cache.ReadAfterDelete` | petshop-product-redirect.php:46-69 | after `delete_transient`, a read of the store fetches the configured URL, and the transient is refilled with the returned catalog and the configured expiration unless the fetch fails |
| `Cache.TransientStore.Delete` | petshop-product-redirect.php:338 | `delete_transient` leaves no entry |
| `Dropdown.Options` | petshop-product-redirect.php:91-116 | the list starts with the "no redirect" option, and an empty catalog gives exactly that one option |
| `Dropdown.BuildOptions` | petshop-product-redirect.php:91-116 | the outer loop, after the leading "no redirect" option, yields exactly `Options` |
| `Dropdown.CategoryBlock` | petshop-product-redirect.php:94-113 | one pass of the outer loop yields nothing for a malformed category, otherwise its header followed by its children's options, as `Options` defines them |
| `Dropdown.ChildBlock` | petshop-product-redirect.php:99-110 | one pass of the middle loop yields nothing for a malformed child, otherwise its header followed by its products' options |
| `Dropdown.AppendChildren` | petshop-product-redirect.php:98-113 | the middle loop yields a header per well-formed child, each followed by its products' options, as `Options` defines them |
| `Dropdown.AppendProducts` | petshop-product-redirect.php:103-110 | the inner loop yields one option per well-formed product, as `Options` defines them |
| `Dropdown.ChoicesAreListedProducts` | petshop-product-redirect.php:103-108 | the selectable product options are exactly the well-formed products under well-formed ancestors, in tree order, each selected iff its url is the string selection |
| `Dropdown.HeadingsAreWellFormedNodes` | petshop-product-redirect.php:94-102 | the disabled headers are exactly the well-formed categories, each followed by its well-formed children; there are as many as well-formed categories plus well-formed children |
| `Catalog.HeadingCount` | petshop-product-redirect.php:95-102 | the catalog has one heading per well-formed category and one per well-formed child inside one |
| `Dropdown.NoRedirectOnlyFirst` | petshop-product-redirect.php:91 | "no redirect" is the first option, and no other option is |
| `Dropdown.SelectedIffExactMatch` | petshop-product-redirect.php:106 | a product option is marked selected iff its url is exactly the selected string |
| `Dropdown.NothingSelectedWithoutMatch` | petshop-product-redirect.php:106 | if no well-formed product's url equals the selection, no option is selected |
| `Dropdown.MalformedCategorySkipped` | petshop-product-redirect.php:95 | removing a category that is not an array or has no name leaves the list unchanged, children included |
| `Dropdown.MalformedChildSkipped` | petshop-product-redirect.php:100 | removing a child that is not an array or has no name leaves its category's options unchanged, products included |
| `Dropdown.MalformedProductSkipped` | petshop-product-redirect.php:105 | removing a product that is not an array or lacks url or name leaves its child's options unchanged |
| `Dropdown.MarkupStartsWithNoRedirect` | petshop-product-redirect.php:82-91 | the markup opens with the select tag, followed directly by the "-- No Redirect --" option |
| `Dropdown.BuildDropdown` | petshop-product-redirect.php:79-121 | the markup is that of `Options` over the catalog `ReadThrough` returns, and the cache changes as `ReadThrough` says |
| `Actions.UpdateActionInjective` | petshop-product-redirect.php:86 | different products get different nonce actions `pr_update_redirect_<id>` |
| `Actions.UpdateActionIsNotFixedAction` | petshop-product-redirect.php:238 | no product's update action equals the metabox or the settings nonce action |
| `Php.DecimalStringInjective` | petshop-product-redirect.php:86 | two ids with the same decimal text are equal |
| `Php.Absint` | petshop-product-redirect.php:234 | the result is the id or its negation, and is non-negative |
| `Columns.AddProductColumn` | petshop-product-redirect.php:206-215 | the loop yields `WithRedirectColumn` of the input: each entry put in order, with `pr_redirect` put right after `name` |
| `Columns.Put` | petshop-product-redirect.php:209 | assigning to a PHP array appends a key it does not hold, and keeps its length when it does |
| `Columns.PutOverwritesInPlace` | petshop-product-redirect.php:209 | with unique keys, assigning to a key the array holds replaces that entry's value in place and changes no other entry |
| `Columns.PutKeepsKeysUnique` | petshop-product-redirect.php:209-211 | assigning to a PHP array keeps its keys unique |
| `Columns.NoNameColumnUnchanged` | petshop-product-redirect.php:206-215 | without a `name` key, the output equals the input |
| `Columns.InsertedAfterName` | petshop-product-redirect.php:206-215 | with `name` at position k, every key and label keeps its order, and `pr_redirect` is inserted at k+1 |
| `Handlers.AjaxDecide` | petshop-product-redirect.php:230-246 | success iff all three fields are present, the nonce verifies for `pr_update_redirect_<absint id>`, and the user can edit that product; the first failing guard picks the error; a write happens iff success, and goes to that product with the unslashed, sanitised URL |
| `Handlers.AjaxUpdateRedirect` | petshop-product-redirect.php:230-246 | replies as `AjaxDecide`, and the meta store changes only by its write |
| `Handlers.NonceForOtherProductRejected` | petshop-product-redirect.php:238 | if each nonce verifies for at most one action, a nonce issued for product A is rejected for any other product, and nothing is written |
| `Handlers.OtherFormNoncesRejected` | petshop-product-redirect.php:238 | if each nonce verifies for at most one action, a metabox or settings nonce cannot authorise an AJAX update |
| `Handlers.MetaBoxDecide` | petshop-product-redirect.php:146-160 | writes iff the nonce field is present and valid, it is not an autosave, the user can edit the product, and the URL field is present; the write is the sanitised URL for that post |
| `Handlers.SaveMetaBoxData` | petshop-product-redirect.php:146-160 | the meta store changes only by the write of `MetaBoxDecide` |
| `WordPress.Applied` | petshop-product-redirect.php:158 | a write stores `wp_unslash` of the value passed (as `update_post_meta` does) under its target product, and every other product's stored URL is unchanged |
| `WordPress.PostMetaStore.Apply` | petshop-product-redirect.php:244 | the store becomes `Applied` of its old contents |
| `Handlers.RedirectProductPage` | petshop-product-redirect.php:167-176 | redirects (calls `wp_redirect`, then `exit`) iff the page is a single product whose stored URL is not `empty()`, and then to the `esc_url` of that URL, which may be "" and then sends no Location header |
| `Handlers.RedirectOnVisit` | petshop-product-redirect.php:167-176 | reading the post-meta store, decides as `RedirectProductPage` over the store's contents |
| `Handlers.NeverRedirectsWithoutRecord` | petshop-product-redirect.php:170-171 | a corollary of `RedirectProductPage` and `StoredUrl`: a product with no stored URL is never redirected |
| `Handlers.SavedRedirectFires` | petshop-product-redirect.php:146-176 | after a successful metabox save, visiting the product redirects to the stored URL (the sanitised value, unslashed by `update_post_meta`) unless it is `empty()` |
| `Handlers.AjaxUpdateLeavesOthers` | petshop-product-redirect.php:244 | an AJAX update of one product changes no other product's redirect decision |
| `SettingsPage.FormSubmission` | petshop-product-redirect.php:349-364 | a submission carries the nonce, both inputs, and only the pressed button's name |
| `SettingsPage.HandleAsWritten` | petshop-product-redirect.php:328-342 | as written: flushes iff both button names were sent with a valid nonce; saves iff `pr_save_settings` was sent with a valid nonce, and then ends with the saved notice; with `pr_save_settings` and a bad nonce shows only the nonce error; without `pr_save_settings` does nothing |
| `SettingsPage.FlushButtonIgnoredAsWritten` | petshop-product-redirect.php:328-363 | as written, pressing "Flush Cache" shows no notice, saves nothing and flushes nothing |
| `SettingsPage.FormNeverFlushesAsWritten` | petshop-product-redirect.php:328-363 | as written, no submission of the form deletes the cached catalog |
| `SettingsPage.Handle` | petshop-product-redirect.php:328-342 | corrected: flushes iff "Flush Cache" was sent with a valid nonce; saves iff either button was sent with a valid nonce, and then ends with the saved notice; a bad nonce shows only the nonce error |
| `SettingsPage.FlushButtonFlushes` | petshop-product-redirect.php:337-341 | corrected: "Flush Cache" with a valid nonce flushes, saves both fields and shows both notices |
| `SettingsPage.SaveButtonUnchanged` | petshop-product-redirect.php:328-342 | the correction behaves as written for "Save Settings", which never flushes |
| `SettingsPage.SavedSettingsReadBack` | petshop-product-redirect.php:332-335 | saved values read back as the stored URL and an expiration of saved hours times 3600, never negative |
| `SettingsPage.ProcessBlock` | petshop-product-redirect.php:329-342 | once the block runs, the notices, the options and the transient change exactly as `Process` says |
| `SettingsPage.ProcessSettingsForm` | petshop-product-redirect.php:328-342 | as written: the notices, the options and the transient change exactly as `HandleAsWritten` says, so a "Flush Cache" press changes nothing |
| `SettingsPage.ProcessSettingsFormCorrected` | petshop-product-redirect.php:328-342 | corrected: the notices, the options and the transient change exactly as `Handle` says |

## Left out

- The GET request (`wp_remote_get`), reading the body and `json_decode`. The caller supplies the
  result, already decoded (`Cache.FetchResult`): they are library and network calls.
- Time. A transient's expiry is the same state change as deleting it (`TransientStore.Delete`). The
  model does not represent WordPress treating an expiration of 0 (0 hours saved) as "never expires".
- Nonce creation and verification, `current_user_can`, `sanitize_text_field`, `wp_unslash`, `esc_url`,
  `esc_url_raw`, `esc_attr` and `esc_html`. These are host calls, modelled as fields of
  `WordPress.Host` that are never interpreted. Where WordPress itself calls one of them, the model
  calls it too: `update_post_meta` stores `wp_unslash` of its value, so the AJAX path stores a
  doubly unslashed URL. Any binding between a nonce and its action is a
  hypothesis of the lemmas that need it (`Handlers.NoncesBound`).
- `intval` of POST strings: numeric fields are given as unbounded integers, so the 64-bit
  saturation of `intval` and `absint` is not modelled. Names and urls that are JSON
  arrays or objects are not distinguished from other non-string scalars (`Catalog.NonText`).
- `Settings.GetPluginSettings`: PHP integer width and overflow to float are not modelled. Its
  expiration is the exact product hours × 3600 over unbounded integers. In PHP, hours above
  2562047788015215 (`PHP_INT_MAX` / 3600) make the product a float, and `set_transient`'s cast of
  it is then not hours × 3600. The same holds for `SettingsPage.SavedSettingsReadBack`, whose
  "never negative" expiration is true only over unbounded integers.
- Translation (`__()`): labels are the English strings.
- Hook registration, `add_meta_box`, `pr_render_meta_box`, `pr_render_product_column`, the
  admin-notice markup, script enqueueing, the inline jQuery script, the settings menu and form
  markup, and the Git update checker. These are registration or UI code, or a foreign library.
- `wp_redirect` followed by `exit`, and `wp_send_json_*` ending the request: these are modelled as the
  returned decision or reply.
- `Dropdown.BuildOptions`: the three nested loops are split into one method per level
  (`AppendChildren`, `AppendProducts`), and the body of the two outer loops into `CategoryBlock` and
  `ChildBlock`. Each inner method returns the options it appends rather than
  appending to a shared string.
- `Columns.InsertedAfterName`: stated only for columns without a `pr_redirect` key. With one already
  present, `WithRedirectColumn` follows PHP's overwrite-in-place semantics, but no lemma describes the result.

## Findings

| source | as written | input that shows it | evidently intended | confidence | as-written member | corrected member |
|---|---|---|---|---|---|---|
| petshop-product-redirect.php:328 | the form is processed only if `$_POST['pr_save_settings']` is set, but a browser sends only the pressed submit button's name | press "Flush Cache" (`pr_flush_cache`) with a valid nonce | pressing "Flush Cache" deletes the cached catalog | high (follows from HTML form submission semantics); not executed | `SettingsPage.FlushButtonIgnoredAsWritten` | `SettingsPage.FlushButtonFlushes` |
