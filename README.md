# Admin console core, modelled in Dafny

A model of the decision and update rules of a small e-commerce admin console
(Next.js, Supabase): the route gate that guards the console with the
`admin_auth` cookie, the server actions that log in, log out, save and delete
products, the client-side state of the product search box, the feedback screen
and the category screen, the redirect after creating a category, and two
one-shot store scripts (merging size variants into one product, and seeding
the category list).

Modules, one per source file, plus shared helpers:

| file | module | models |
|---|---|---|
| wrappers.dfy | `Wrappers` | `Option` for absent form fields and cookies |
| text.dfy | `Text` | JavaScript `trim`, `toLowerCase`, `includes`, `startsWith` |
| lists.dfy | `Lists` | `Array.prototype.filter` and what callers rely on (membership, order, multiplicity) |
| catalog.dfy | `Catalog` | the `products` table as a map held by a class, with a store that may refuse a request |
| middleware.dfy | `Middleware` | `middleware.ts` |
| actions.dfy | `Actions` | `app/actions.ts` |
| dashboard.dfy | `Dashboard` | `app/DashboardClient.tsx` |
| feedback.dfy | `FeedbackClient` | `app/FeedbackClient.tsx` |
| categories.dfy | `CategoriesClient` | `app/categories/CategoriesClient.tsx` |
| new_category.dfy | `NewCategoryPage` | `app/categories/new/page.tsx` |
| merge_sizes.dfy | `MergeProductSizes` | `scripts/merge-product-sizes.js` |
| seed_categories.dfy | `SeedCategories` | `scripts/seed-categories.ts` |

Conventions of the model:

- A redirect (`redirect()` from `next/navigation`, which throws to end the
  action) is the location the method returns.
- The hosted store is a class holding a `map` from id to row
  (`Catalog.ProductTable`, `SeedCategories.CategoryTable`). Its `refused` field
  is the set of requests the store answers with an error during a run, so
  every store call may fail and the scripts' failure branches are reachable.
  A `.single()` select also fails when the row is missing, and an insert fails
  on an existing id.
- `crypto.randomUUID()` is modelled as "some id not yet in the table", which
  `Catalog.FreshKeyExists` shows always exists.
- `parseFloat` and `parseInt` are not modelled. The form carries their results
  as `Option<real>` and `Option<int>`, where `None` stands for NaN. `JSON.parse`
  is a function parameter that returns `None` where it would throw.
- Server actions whose bodies are not part of this model (`saveFeedback`,
  `deleteFeedback`, `saveCategory`, `updateCategoryName`, `deleteCategory`)
  are represented only by what they answer: an `Actions.ActionResult`
  (`Success`, `Error(code)`, or `Threw`) passed in as a parameter.
- The user's answer to a `confirm()` dialog is a boolean parameter.

Behaviour worth noting:

- An unparsable `images` or `features` JSON field makes `saveProduct` throw;
  the parse is not guarded.
- `saveProduct` stores the gallery and feature lists exactly as parsed: it
  drops no blank entries and does not limit their number.
- The product search filters on every keystroke. The block labelled
  "debounced" runs once, at mount.
- `saveProduct` and `deleteProduct` report success without looking at the
  store's answer.
- The feedback form sends an `id` only when `editingId` is truthy, so an
  empty-string id is not sent.
- A rating field of `"0"` is stored as 5, because `0 || 5` is 5.

## Model

| member | source | states |
|---|---|---|
| Middleware.IsProtected | middleware.ts:17 | A path is protected when it starts with `/products`, `/categories` or `/feedback`, or is `/`; every protected path starts with `/`, and `/login` is never protected |
| Middleware.Gate | middleware.ts:4-24 | Redirect to `/` exactly for `/login` with cookie "true"; redirect to `/login` exactly for a protected path without it; every other request passes |
| Middleware.CookieMustBeExactlyTrue | middleware.ts:17-20 | On a protected path only the exact cookie value "true" passes; "TRUE" is redirected to `/login` |
| Middleware.NoRedirectLoop | middleware.ts:9-20 | Requesting the redirect target with the same cookie is let through |
| Middleware.MatchedPathsAreProtected | middleware.ts:17-28 | Every path `config.matcher` admits (`/`, `/login`, and each of the three sections with everything below it), apart from `/login`, passes the gate's protected-path test |
| Middleware.Matched | middleware.ts:26-28 | `config.matcher`: `/`, `/login`, or one of the three sections and everything below it; every matched path starts with `/`, and `/`, `/login` and anything under a section's `/` are matched |
| Middleware.Route | middleware.ts:4-28 | Unmatched paths pass untouched; `/login` with cookie "true" goes home; every other matched path goes to `/login` exactly when the cookie is not "true"; every other request passes |
| Middleware.PrefixTestWiderThanMatcher | middleware.ts:17-28 | `/productsX` fails the gate's prefix test without the cookie, yet the matcher never hands it to the gate, so it passes |
| Middleware.RouteNoRedirectLoop | middleware.ts:4-28 | Following either redirect of the deployed gate with the same cookie is let through |
| Actions.Login | app/actions.ts:10-26 | Matching email and password set the cookie to "true" and go to `/`; any mismatch leaves the cookie and goes to `/login?error=invalid` |
| Actions.Logout | app/actions.ts:28-32 | Whatever the prior state, the cookie is removed and the location is `/login` |
| Actions.SessionCookieMatchesGate | app/actions.ts:14-31 | The cookie login sets opens every protected path and redirects `/login` home; with no cookie, protected paths go to `/login` |
| Actions.CredentialsMatch | app/actions.ts:14 | A missing email or password never matches; a match pins both to the configured values |
| Actions.HasImage | app/actions.ts:38 | The image field is present and holds at least one non-whitespace character |
| Actions.OrDefault | app/actions.ts:51-59 | JavaScript `parsed or default`: NaN and 0 both give the default, any other number is kept |
| Actions.IntOrDefault | app/actions.ts:60 | `parseInt` or 0: NaN and 0 give the default, any other integer is kept |
| Actions.JsonList | app/actions.ts:42-46 | An absent or empty list field gives `[]`; otherwise the result is what `JSON.parse` gives |
| Actions.ProductData | app/actions.ts:42-61 | Fails only when a list field fails to parse; the image is stored untrimmed; price, original price and reviews keep any non-zero parsed value and are 0 for NaN or 0; rating keeps a non-zero parsed value and is 5 for NaN or 0; the gallery and features are what `JSON.parse` gives, or `[]` for an absent or empty field; the checkboxes are true exactly for "on" |
| Actions.NewProduct | app/actions.ts:66-67 | An inserted row has the generated id, the written columns, and store defaults elsewhere |
| Actions.SaveProduct | app/actions.ts:34-71 | Missing or blank image: `missing_image` and no write. Bad JSON: throws, no write. Truthy id: update of that row. Otherwise: insert under an id not in the table. Success either way |
| Actions.DeleteProduct | app/actions.ts:73-84 | An absent or empty id throws before any delete; otherwise one delete by id and success |
| Actions.SaveTouchesOneRow | app/actions.ts:63-68 | Whether it updates or inserts, a save leaves every row but the one keyed by the id unchanged |
| Catalog.Fetched | scripts/merge-product-sizes.js:35-39 | A single-row select succeeds exactly when the row exists and the request is not refused, and then yields that row |
| Catalog.Inserted | scripts/merge-product-sizes.js:82-84 | An accepted insert adds the row under its id; a refused or conflicting one changes nothing; existing rows never change |
| Catalog.Updated | app/actions.ts:64 | An update by id keeps the set of ids and rewrites only the written columns of the matching row |
| Catalog.Deleted | app/actions.ts:80 | A delete by id removes that row, or nothing if refused; other rows are kept |
| Catalog.ProductTable.constructor | lib/supabase-admin.ts:1-19 | A table starts with the given rows and refusal set |
| Catalog.ProductTable.Select | scripts/merge-product-sizes.js:49-53 | Returns the row when it exists and the request is not refused |
| Catalog.ProductTable.Insert | app/actions.ts:67 | Reports acceptance and applies `Inserted` to the rows |
| Catalog.ProductTable.Update | app/actions.ts:64 | Applies `Updated` to the rows; a missing row is not an error |
| Catalog.ProductTable.Delete | app/actions.ts:80 | Applies `Deleted` to the rows; a missing row is not an error |
| Catalog.FreshKeyExists | app/actions.ts:66 | Some id is always unused, so the insert branch can always draw a fresh id |
| Text.Trim | app/FeedbackClient.tsx:98 | The result is a slice of the input with only whitespace cut from each end, starts and ends with a non-space, and is empty exactly when the input is all whitespace |
| Text.TrimIdempotent | app/FeedbackClient.tsx:107-110 | Trimming a trimmed string changes nothing |
| Text.BlankIgnoresCase | app/DashboardClient.tsx:54 | If two queries are equal after lower-casing, one is blank exactly when the other is |
| Text.IsBlank | app/DashboardClient.tsx:54 | `trim() === ""` holds exactly when every character is whitespace |
| Text.ToLower | app/DashboardClient.tsx:58 | Same length, each character lower-cased on its own, and no ASCII capital left |
| Text.Contains | app/DashboardClient.tsx:58 | `includes` never finds a longer needle, and always finds the empty string and the whole string |
| Dashboard.TitleMatches | app/DashboardClient.tsx:58 | A query longer than the title never matches; the empty query matches every title |
| Dashboard.SearchResults | app/DashboardClient.tsx:54-60 | A blank query shows all loaded products; otherwise only products whose lower-cased title contains the lower-cased query, never more than were loaded |
| Dashboard.SearchKeepsMatchesInOrder | app/DashboardClient.tsx:57-60 | A product is shown exactly when loaded and matching, in the loaded order, with all its occurrences |
| Dashboard.SearchIgnoresCase | app/DashboardClient.tsx:54-58 | Queries that differ only in letter case give the same list |
| Dashboard.SearchDoesNotTrimQuery | app/DashboardClient.tsx:54-58 | "tin" finds "Tin" but "tin " (trailing space) does not: trimming only decides reset versus filter |
| Dashboard.DashboardState.constructor | app/DashboardClient.tsx:22-23 | The search text starts empty and the list starts as the loaded products |
| Dashboard.DashboardState.OnSearchChange | app/DashboardClient.tsx:52-62 | The search text becomes the input and the list is recomputed from the loaded products for that input alone |
| FeedbackClient.FilledCountIsShownValue | app/FeedbackClient.tsx:28-40 | The filled stars are the first hovered-or-stars of the row, clamped to its length |
| FeedbackClient.ShownStars | app/FeedbackClient.tsx:40 | `hovered or stars`: a hovered star is shown when there is one, the rating otherwise |
| FeedbackClient.StarsShownForRating | app/FeedbackClient.tsx:40 | With no hover a rating fills that many of the five stars; a hover fills up to the hovered star |
| FeedbackClient.Payload | app/FeedbackClient.tsx:95-116 | Nothing is sent exactly when name or title is absent or blank; the text fields are sent trimmed, image and stars as held; an id is sent exactly when `editingId` is truthy |
| FeedbackClient.PayloadIsTrimmed | app/FeedbackClient.tsx:107-110 | Every text field sent is its own trim, and name and title are non-empty |
| FeedbackClient.WithoutId | app/FeedbackClient.tsx:146 | No entry with the deleted id remains |
| FeedbackClient.WithoutIdKeepsTheRest | app/FeedbackClient.tsx:146 | An entry remains exactly when it was there with another id, with all its occurrences and in the original order |
| FeedbackClient.FeedbackState.constructor | app/FeedbackClient.tsx:48-54 | Initial state: the loaded list, form hidden, no flags, no image, not editing, five stars |
| FeedbackClient.FeedbackState.UploadStart | app/FeedbackClient.tsx:74-76 | Sets the uploading flag and nothing else |
| FeedbackClient.FeedbackState.UploadSuccess | app/FeedbackClient.tsx:62-66 | Takes the uploaded URL and clears the flag |
| FeedbackClient.FeedbackState.UploadError | app/FeedbackClient.tsx:68-72 | Clears the flag and leaves the image unchanged |
| FeedbackClient.FeedbackState.RemoveImage | app/FeedbackClient.tsx:257 | Clears the image and nothing else |
| FeedbackClient.FeedbackState.SelectStars | app/FeedbackClient.tsx:237 | The star the widget reports (1 to 5) becomes the selected rating; nothing else changes |
| FeedbackClient.FeedbackState.Edit | app/FeedbackClient.tsx:78-83 | Loads the entry's id, its image or "", its stars, and shows the form |
| FeedbackClient.FeedbackState.ResetForm | app/FeedbackClient.tsx:85-90 | Not editing, no image, five stars, form hidden |
| FeedbackClient.FeedbackState.OpenNewForm | app/FeedbackClient.tsx:163 | Not editing, no image, five stars, form shown |
| FeedbackClient.FeedbackState.Submit | app/FeedbackClient.tsx:92-134 | Sends `Payload` of the current state or nothing; ends not submitting; a successful save resets the form, anything else leaves it |
| FeedbackClient.FeedbackState.Delete | app/FeedbackClient.tsx:136-152 | Calls the server exactly when confirmed; the list loses the id only on success and is otherwise unchanged |
| CategoriesClient.Renamed | app/categories/CategoriesClient.tsx:84-86 | Same length; categories with another id are unchanged; the matching one changes only its name |
| CategoriesClient.RenameKeepsIds | app/categories/CategoriesClient.tsx:84-86 | Renaming keeps every id in place and so keeps ids unique |
| CategoriesClient.RenameRoundTrip | app/categories/CategoriesClient.tsx:84-86 | With unique ids, renaming back to the old name restores the list |
| CategoriesClient.WithoutCategory | app/categories/CategoriesClient.tsx:44 | No category with the deleted id remains |
| CategoriesClient.WithoutCategoryKeepsTheRest | app/categories/CategoriesClient.tsx:44 | A category remains exactly when it was there with another id, in the original order and multiplicity |
| CategoriesClient.RenamedNameIsTrimmed | app/categories/CategoriesClient.tsx:70-80 | The name sent and stored is trimmed and non-empty |
| CategoriesClient.CategoriesState.constructor | app/categories/CategoriesClient.tsx:32-35 | The loaded list, no pending delete, not editing |
| CategoriesClient.CategoriesState.RequestDelete | app/categories/CategoriesClient.tsx:197 | The delete confirmation is pending for that id |
| CategoriesClient.CategoriesState.DismissDelete | app/categories/CategoriesClient.tsx:213-222 | No delete confirmation is pending |
| CategoriesClient.CategoriesState.HandleDeleteCategory | app/categories/CategoriesClient.tsx:37-57 | On success the id is removed, otherwise the list is unchanged; the pending confirmation is cleared either way |
| CategoriesClient.CategoriesState.ConfirmDelete | app/categories/CategoriesClient.tsx:224 | Deletes the pending id when it is truthy; otherwise changes nothing |
| CategoriesClient.CategoriesState.StartEditing | app/categories/CategoriesClient.tsx:59-62 | Edits that category, starting from its current name |
| CategoriesClient.CategoriesState.EditName | app/categories/CategoriesClient.tsx:157 | The draft name becomes the typed text; nothing else changes |
| CategoriesClient.CategoriesState.CancelEditing | app/categories/CategoriesClient.tsx:64-67 | Clears both edit fields |
| CategoriesClient.CategoriesState.SaveEditing | app/categories/CategoriesClient.tsx:69-99 | A blank name sends nothing and changes nothing; otherwise the trimmed name is sent; success renames and ends editing, anything else changes nothing |
| NewCategoryPage.RedirectFor | app/categories/new/page.tsx:16-24 | `missing_name` and `duplicate_id` go back to the form with that error; everything else goes to `/categories` |
| NewCategoryPage.HandleSubmit | app/categories/new/page.tsx:11-25 | saveCategory is called once, first; a redirect follows unless it threw |
| NewCategoryPage.UnrecognisedErrorsGoToList | app/categories/new/page.tsx:24 | Success and any other error code redirect to `/categories` |
| MergeProductSizes.ProductGroupsWellFormed | scripts/merge-product-sizes.js:9-26 | Every listed group names at least one variant |
| MergeProductSizes.Detail | scripts/merge-product-sizes.js:60-64 | The size comes from the group; price and stock come from the fetched row |
| MergeProductSizes.VariantDetails | scripts/merge-product-sizes.js:46-64 | Never more entries than variants (the entries are those of the fetched variants, by `DetailsOfFetchedVariants`) |
| MergeProductSizes.DetailsOfFetchedVariants | scripts/merge-product-sizes.js:47-65 | The size list holds one entry per variant whose fetch succeeds, in group order, and none for the others |
| MergeProductSizes.FirstFetchedGivesDetails | scripts/merge-product-sizes.js:35-65 | Once the first variant was fetched the size list is not empty, so the minimum is defined |
| MergeProductSizes.MinPrice | scripts/merge-product-sizes.js:72 | The merged price is at most every fetched price and equals one of them |
| MergeProductSizes.MergedRow | scripts/merge-product-sizes.js:68-79 | The first variant's row with the group's id and title, the lowest price, `has_sizes`, the size list and no `created_at`; every other column copied |
| MergeProductSizes.Ids | scripts/merge-product-sizes.js:96 | The listed variant ids, in order |
| MergeProductSizes.DeleteAll | scripts/merge-product-sizes.js:96-107 | A run of deletes only removes rows: no key appears and every surviving row is unchanged |
| MergeProductSizes.DeleteAllRemovesListed | scripts/merge-product-sizes.js:96-107 | A row is deleted exactly when its id is listed and its delete is not refused; one refusal does not stop the others |
| MergeProductSizes.MergeAll | scripts/merge-product-sizes.js:31-108 | A row whose id is no group's base id is never created or changed by the script; it can only be deleted |
| MergeProductSizes.MergeGroup | scripts/merge-product-sizes.js:35-44 | A group whose first variant cannot be fetched leaves the table unchanged |
| MergeProductSizes.InsertFailureDeletesNothing | scripts/merge-product-sizes.js:82-89 | A failed insert leaves the table unchanged: no variant is deleted |
| MergeProductSizes.MergedGroupEffect | scripts/merge-product-sizes.js:68-107 | After an accepted insert the merged row is stored, every listed id is deleted unless refused, and all other rows are untouched |
| MergeProductSizes.MergeAllAppend | scripts/merge-product-sizes.js:31-108 | Groups run in order, each on what the earlier ones left, whether they failed or not |
| MergeProductSizes.CollectDetails | scripts/merge-product-sizes.js:46-64 | Reads only; the list built is `VariantDetails`: one entry per variant whose fetch succeeds, in the group's order |
| MergeProductSizes.DeleteVariants | scripts/merge-product-sizes.js:96-107 | The table afterwards is `DeleteAll` of the variant ids: every delete is attempted, in order, whatever the earlier ones returned |
| MergeProductSizes.MergeOneGroup | scripts/merge-product-sizes.js:31-108 | One group's pass leaves the table as `MergeGroup` describes: unchanged unless the first fetch and the insert succeed |
| MergeProductSizes.MergeProducts | scripts/merge-product-sizes.js:28-111 | The loop leaves the table as `MergeAll` of the groups |
| SeedCategories.CategoriesWellFormed | scripts/seed-categories.ts:3-39 | The fixed list has distinct ids and each record's `idx` is its position |
| SeedCategories.Upserted | scripts/seed-categories.ts:45-47 | An accepted upsert maps the id to exactly the record; a refused one changes nothing; other rows are kept |
| SeedCategories.SeedAll | scripts/seed-categories.ts:44-54 | Seeding never removes a row, and every new id is one of the listed categories |
| SeedCategories.Overrides | scripts/seed-categories.ts:44-54 | The rows a seed overwrites: accepted ids only, each mapped to a record with that id |
| SeedCategories.SeedAllIsOverride | scripts/seed-categories.ts:44-54 | Seeding is the old table overridden by the accepted records |
| SeedCategories.SeedIsIdempotent | scripts/seed-categories.ts:44-54 | Running the seed twice gives the same table as once |
| SeedCategories.SeedStoresListed | scripts/seed-categories.ts:44-54 | With distinct ids each accepted record is stored exactly; refused and unlisted ids keep their rows |
| SeedCategories.CategoryTable.constructor | lib/supabase-admin.ts:1-19 | A table starts with the given rows and refusal set |
| SeedCategories.CategoryTable.Upsert | scripts/seed-categories.ts:45-47 | Reports acceptance and applies `Upserted` |
| SeedCategories.Seed | scripts/seed-categories.ts:41-57 | The loop leaves the table as `SeedAll` of the list and reports each refused listed id |

## Left out

- Text.ToLower: lower-cases ASCII letters only; JavaScript's `toLowerCase` also folds the rest of Unicode.
- The "debounced" search block of `app/DashboardClient.tsx` (a `useState` initializer holding a timer): it runs once at mount with an empty query and is not modelled. Timers are not modelled at all.
- `parseFloat`, `parseInt`, `JSON.parse` and floating point: prices and ratings are reals, and parsing results are inputs.
- MergeProductSizes.MergedRow: the source fetches the first variant twice, by separate requests (`select('*')` at scripts/merge-product-sizes.js:35-39 and `select('id, price, in_stock, title')` at 49-53). If the second fails after the first succeeded, `variantDetails` is empty and the source computes a price of `Math.min()` = `Infinity`, which reaches the store as `null` because JSON has no `Infinity`. The model rules this out only through its fixed refusal set (see the `MergeProductSizes.MergeProducts` line), under which both selects of a row get the same answer.
- The bodies of `saveFeedback`, `deleteFeedback`, `saveCategory`, `updateCategoryName` and `deleteCategory` are not part of this model (slug derivation, duplicate-id check). Only their answers are inputs.
- Actions.Login: the credentials are configured strings. An unset `EMAIL` or `PASS` environment variable, which no form value could match, is not modelled.
- Cookie attributes (httpOnly, sameSite, 24-hour maxAge, secure) and cookie expiry: the cookie is an optional string.
- The network, the Supabase client (`lib/supabase-admin.ts`) and the data-loading pages: the store is an in-memory map whose requests may be refused, with a refusal set fixed for a run.
- MergeProductSizes.MergeProducts: a refusal depends only on the request, so two fetches of the same row in one run agree; a store whose answers change between identical requests is not modelled.
- Middleware.Matched: the framework's path handling around the matcher (trailing slashes, base path and locale prefixes, percent-encoding, its own internal routes) is not modelled; a path is matched on its literal text.
- The ImageKit upload signing route, a wrapper over a third-party library.
- UI concerns: markup, toasts, console output, `window.location.reload` after a saved feedback entry, `router`, and the login page markup.
- Concurrency: simultaneous edits and the timing of asynchronous uploads; each handler runs to completion on its own.
