# Social media analytics dashboard: a verified model of its core

The system is a small social-media analytics application. A Django REST
backend stores social posts. Each post has a title, content, a platform, a
status, four engagement counters and an optional scheduled time. The backend
serves list, create, retrieve, update and delete endpoints, a dashboard
statistics endpoint, and a reshaped feed of external "trending" posts. A
React frontend has three screens:

- a post list with a search box and two select filters;
- a create/edit dialog;
- a dashboard with charts, recent posts and two external-data panels.

This project models that core in Dafny and proves what each part promises.

| file | module | models |
|---|---|---|
| `common.dfy` | `Common` | optional values, order-preserving selection (`filter`), sums, bounded prefixes (`[:n]`, `substring(0, n)`) |
| `text.dfy` | `Text` | ASCII `toLowerCase`/`toUpperCase`, `includes`, label capitalisation, `parseInt` without a radix (ECMA-262, section 19.2.5), decimal rendering of integers |
| `types.dfy` | `Types` | the `SocialPost` and `DashboardStats` shapes of `frontend/lib/api.ts`, the trends and weather payloads, the API calls the frontend issues |
| `models.dfy` | `Models` | `backend/posts/models.py`: choices, defaults, the title bound, the validation these impose, `engagement_rate`, `__str__` |
| `views.dfy` | `Views` | `backend/posts/views.py`: the post table (a class) and its endpoints, the statistics loops, the trends reshaping loop |
| `post_list.dfy` | `PostListView` | `frontend/components/PostList.tsx`: the visible-post filter and the screen state |
| `post_form.dfy` | `PostFormView` | `frontend/components/PostForm.tsx`: the form record, field changes, the submit rule and its lifecycle |
| `dashboard.dfy` | `DashboardView` | `frontend/components/Dashboard.tsx`: chart series, recent-post bodies, slice colours, panel visibility, screen state |

The backend table is a `seq<Post>` kept in the model's default order, newest
`created_at` first. A created row is the newest, so `Create` puts it in front.
Its invariant (`ValidRows`) says four things:

- every row has a primary key;
- the keys are distinct;
- every key is below the next key to be assigned;
- every row is well-formed: non-blank title of at most 200 characters, non-blank content, platform and status among the choices.

Network results, user confirmations and API outcomes are parameters. They
are either a `Fetched` value (the data, or a rejection with an optional
`message`) or a `bool` for `confirm`. The frontend components are classes
whose fields are the React state. Each handler is a method, and its
`ensures` gives the whole new state.

Behaviour modelled as written, including where it may surprise:

- `avg_engagement_rate` is the average of `likes`, not of the engagement rate (`Views.Average`, `Views.PostTable.DashboardStatistics`).
- A post whose id is 0 is submitted through `create`, although the dialog shows "Update Post" (`PostFormView.IdZeroCreates`).
- The chart label for `linkedin` is "Linkedin", not the display name "LinkedIn" (`DashboardView.PlatformChartOfStats`).
- The backend's failure bodies carry no `message`, so the form always shows "An error occurred" (`PostFormView.BackendFailuresShowGenericText`).
- "Create Post" does not clear `editingPost`. This is harmless: the dialog closes only through `handleFormClose`, which clears it, so from a closed dialog the button opens an empty form (`PostListView.PostList.Valid`, `PostListView.PostList.OpenCreateForm`).

## Model

| member | source | states |
|---|---|---|
| Common.Filter | frontend/components/PostList.tsx:56-63 | the selection holds exactly the elements that pass the predicate, and is no longer than the input |
| Common.FilterIsSubsequence | frontend/components/PostList.tsx:56 | a selection keeps its elements' relative order (it is a subsequence) |
| Common.FilterMultiplicity | frontend/components/PostList.tsx:56 | each kept element occurs as often as in the input; each dropped one occurs not at all |
| Common.FilterTwice | backend/posts/views.py:26-29 | filtering by one field and then by another is filtering once by both |
| Common.RemoveAtIsFilter | backend/posts/views.py:87-88 | deleting the one position whose element fails a predicate is the selection by that predicate |
| Common.Prefix | backend/posts/views.py:113 | `[:n]` has length min(n, length) and is a prefix of its input |
| Common.SumOf | backend/posts/views.py:106-109 | a sum of non-negative values is non-negative |
| Text.Lower | frontend/components/PostList.tsx:57-58 | lower-casing keeps the length and maps each character on its own: an upper-case ASCII letter to the letter 32 code points above it, which is lower-case, and every other character to itself |
| Text.LowerIdempotent | frontend/components/PostList.tsx:57-58 | lower-casing twice is lower-casing once |
| Text.ContainsEmpty | frontend/components/PostList.tsx:57-58 | every string includes the empty string |
| Text.Capitalize | frontend/components/Dashboard.tsx:58 | same length; the empty key stays empty; the first character is the upper-case form of the original first character (a lower-case ASCII letter moves 32 code points down, anything else stays), and the rest is unchanged |
| Text.CapitalizeIdempotent | frontend/components/Dashboard.tsx:58 | capitalising a label twice is capitalising it once |
| Text.TrimStart | frontend/components/PostForm.tsx:72 | `parseInt` skips exactly the leading white space: the result is a suffix, every dropped character is white space, and the result does not start with white space |
| Text.DigitRun | frontend/components/PostForm.tsx:72 | `parseInt` reads the longest run of digits of the radix: every read character is a digit, the next one is not |
| Text.ParseMagnitude | frontend/components/PostForm.tsx:72 | an unsigned parse is non-negative, and is NaN when no decimal digit comes first |
| Text.ParseInt | frontend/components/PostForm.tsx:72 | `parseInt` is NaN unless, after white space, a sign or a decimal digit comes first |
| Text.DecimalDigits | frontend/components/PostForm.tsx:179-185 | the decimal rendering of a number is a non-empty digit string |
| Text.DecimalDigitsValue | frontend/components/PostForm.tsx:179-185 | a number's decimal digits denote that number |
| Text.ParseIntOrZero | frontend/components/PostForm.tsx:72 | the counter value `parseInt(value)`, or 0 in its place: the parsed integer when there is one, and 0 for NaN |
| Text.ParseIntNegated | frontend/components/PostForm.tsx:72 | a leading minus sign negates the number that follows |
| Text.ParseIntRoundTrip | frontend/components/PostForm.tsx:72 | `parseInt` of the decimal rendering of any integer, negative ones included, gives that integer back |
| Models.PlatformsAreClosed | backend/posts/models.py:7-12 | a platform is valid iff it is twitter, instagram, facebook or linkedin; the four keys are distinct |
| Models.StatusesAreClosed | backend/posts/models.py:14-18 | a status is valid iff it is draft, published or scheduled; the three keys are distinct |
| Models.NewRow | backend/posts/models.py:22-28 | a new row holds the defaults: twitter, draft, all counters 0, no scheduled time |
| Models.FieldErrors | backend/posts/models.py:20-23 | data is accepted iff title and content are present (unless partial), a present title is non-blank and at most 200 characters, present content non-blank, a present platform/status among the choices; each of the four fields is reported exactly when it is missing though required or its value is invalid, and no other field is reported (the counters' integer range is not modelled) |
| Models.Merge | backend/posts/views.py:36-38 | `serializer.save()`: the id stays; each field the body carries replaces the stored one, and each field it leaves out keeps its stored value |
| Models.MergeEmptyAndTwice | backend/posts/views.py:56-61 | an empty body changes nothing, and saving the same body twice is saving it once |
| Models.AcceptedIsWellFormed | backend/posts/models.py:20-23 | accepted data, saved on a new row or on a stored one, always yields a well-formed row |
| Models.FullInputAccepted | backend/posts/serializers.py:9-14 | a body carrying every field is accepted iff the post is well-formed, and then replaces every field except the key |
| Models.CreateUsesDefaults | backend/posts/models.py:22-28 | a body with only title and content is accepted and picks up every default |
| Models.EngagementRate | backend/posts/models.py:40-46 | 0 with no impressions; otherwise rate × impressions = (likes + shares + comments) × 100; non-negative for non-negative counters |
| Models.Display | backend/posts/models.py:37-38 | `__str__` starts with the title, then " - ", and ends with the platform |
| Models.DisplayDeterminesTitleAndPlatform | backend/posts/models.py:37-38 | for valid platforms, `title - platform` determines both the title and the platform |
| Views.Listed | backend/posts/views.py:22-31 | the two chained filters select exactly the rows passing both non-empty parameters, in table order |
| Views.IndexOf | backend/posts/views.py:45 | finds a row with the key when there is one; none means no row has it |
| Views.CountsByKey | backend/posts/views.py:117-124 | one entry per key, in key order, each the number of rows with that key (zero counts included) |
| Views.CountsPartitionRows | backend/posts/views.py:116-124 | when every row's key is one of distinct keys, the per-key counts add up to the number of rows |
| Views.CountPerChoice | backend/posts/views.py:117-124 | the counting loop produces exactly the per-choice counts, in choice order |
| Views.Average | backend/posts/views.py:110 | 0 over no rows, otherwise average × count = total |
| Views.CountsCoverTable | backend/posts/views.py:116-124 | in a valid table the platform counts and the status counts each add up to the number of posts |
| Views.RowsHaveChoices | backend/posts/models.py:22-23 | every stored row's platform and status are among the choice keys |
| Views.RemoveKeepsValid | backend/posts/views.py:88 | deleting a row keeps the table invariant |
| Views.PostTable.constructor | backend/posts/models.py:4-33 | the empty table is valid and assigns key 1 first |
| Views.PostTable.List | backend/posts/views.py:20-32 | 200; the posts listed are a subsequence of the table, and a row is listed iff it matches each non-empty parameter |
| Views.PostTable.Create | backend/posts/views.py:34-40 | valid data: one new row (new key, defaults, the data) first in the table and 201; invalid data: 400 with the failing fields and no change |
| Views.PostTable.Retrieve | backend/posts/views.py:42-52 | 200 with the row of that key iff one exists, else 404 `Post not found` |
| Views.PostTable.Update | backend/posts/views.py:54-67 | unknown key: 404 and no change; invalid data: 400 and no change; else exactly that row replaced by its merge with the data, and 200 |
| Views.PostTable.PartialUpdate | backend/posts/views.py:69-82 | the same with title and content optional |
| Views.PostTable.Save | backend/posts/views.py:57-62 | the shared update step, with the same outcome and the invariant kept |
| Views.PostTable.Destroy | backend/posts/views.py:84-97 | unknown key: 404 and no change; else exactly the row with that key is gone, the rest in order, and 204 `Post deleted successfully` |
| Views.PostTable.DashboardStatistics | backend/posts/views.py:99-126 | post count; sums of the four counters; average of likes; per-platform and per-status counts over every choice, each adding up to the post count; the first five rows as recent posts |
| Views.TrendOf | backend/posts/views.py:174-180 | the title cut to 50 characters, the body to 100 (both prefixes), engagement id × 100, source `external_api` |
| Views.ReshapeTrends | backend/posts/views.py:172-180 | the loop yields min(5, n) trends, the i-th built from the i-th external post |
| Views.FetchSocialTrends | backend/posts/views.py:149-199 | 200 with the reshaped trends on a 200 reply; 503 with the status code otherwise; 503 with the failure text when the request fails |
| PostListView.FilteredPosts | frontend/components/PostList.tsx:56-63 | a post is shown iff its lower-cased title or content includes the lower-cased term and each filter is `all` or matches |
| PostListView.FilteredIsOrderedSelection | frontend/components/PostList.tsx:56 | the shown posts keep their loaded order, each visible post as often as it was loaded |
| PostListView.NoCriteriaShowsAll | frontend/components/PostList.tsx:57-60 | an empty search with both filters `all` shows every loaded post |
| PostListView.SearchIgnoresCase | frontend/components/PostList.tsx:57-58 | a search term and its lower-cased form show the same posts |
| PostListView.FindsTitleInOtherCase | frontend/components/PostList.tsx:57 | "LAUNCH" finds the post titled "Launch Day" |
| PostListView.RemoveByIdKeepsTheRest | frontend/components/PostList.tsx:37 | the local removal keeps exactly the posts with another id, in order, and changes nothing when no post has the id |
| PostListView.PostList.constructor | frontend/components/PostList.tsx:9-15 | no posts, loading, form closed, nothing edited, empty search, both filters `all` |
| PostListView.PostList.FetchPosts | frontend/components/PostList.tsx:21-30 | loading ends either way; the fetched list replaces the old one, and a failure keeps it |
| PostListView.PostList.HandleDelete | frontend/components/PostList.tsx:32-43 | declined: no call, no change; confirmed: one delete call, then the posts with that id removed and a success alert, or no change and a failure alert |
| PostListView.PostList.HandleEdit | frontend/components/PostList.tsx:45-48 | the dialog opens on that post |
| PostListView.PostList.OpenCreateForm | frontend/components/PostList.tsx:79 | the dialog opens; the edited post is left as it is, so from a closed dialog the form opens empty, and the screen's invariant is kept |
| PostListView.PostList.HandleFormClose | frontend/components/PostList.tsx:50-54 | the dialog closes, nothing is edited, and the list is reloaded |
| PostListView.PostList.SetSearchTerm | frontend/components/PostList.tsx:97 | the term changes and the shown posts are the filter under the new term |
| PostListView.PostList.SetFilterPlatform | frontend/components/PostList.tsx:107 | the platform filter changes and the shown posts follow it |
| PostListView.PostList.SetFilterStatus | frontend/components/PostList.tsx:123 | the status filter changes and the shown posts follow it |
| PostListView.PostList.FormProps | frontend/components/PostList.tsx:226-231 | the dialog is rendered iff it is open, with the edited post (or none) |
| PostFormView.FieldsDetermineForm | frontend/components/PostForm.tsx:67-75 | the nine fields and the id determine the form record |
| PostFormView.DefaultFormMatchesBackendDefaults | frontend/components/PostForm.tsx:13-23 | the new-post form is empty, has no id and holds the backend's defaults |
| PostFormView.OrNull | frontend/components/PostForm.tsx:38 | an absent or empty scheduled time becomes null; any other is kept |
| PostFormView.Prefill | frontend/components/PostForm.tsx:27-41 | edit mode copies the eight other fields unchanged, no id, and a falsy scheduled time as null |
| PostFormView.WithField | frontend/components/PostForm.tsx:67-75 | the named field becomes: a counter `parseInt(value) || 0`, the scheduled time the text, any other field the text as is; the id is kept |
| PostFormView.WithFieldChangesOnlyThatField | frontend/components/PostForm.tsx:69-74 | every field other than the named one keeps its value |
| PostFormView.CounterEchoKeepsValue | frontend/components/PostForm.tsx:71-73 | typing the decimal form of any integer, negative ones included, into a counter stores that integer |
| PostFormView.CounterWithoutNumberIsZero | frontend/components/PostForm.tsx:72 | text not starting with white space, a sign or a digit stores 0 |
| PostFormView.StatusChangeKeepsScheduledTime | frontend/components/PostForm.tsx:231-244 | changing the status keeps the scheduled time; its input shows only for `scheduled` |
| PostFormView.RequestFor | frontend/components/PostForm.tsx:49-57 | an update of the post's id with the form plus that id iff the post has a truthy id, else a create of the form |
| PostFormView.IdZeroCreates | frontend/components/PostForm.tsx:49-57 | a post with id 0 is created, while the button reads "Update Post" |
| PostFormView.SubmitLabel | frontend/components/PostForm.tsx:253 | "Saving..." while loading, else "Update Post" iff a post is given and "Create Post" iff none |
| PostFormView.ErrorText | frontend/components/PostForm.tsx:60 | never empty; a non-empty server message, else "An error occurred" |
| PostFormView.MessageOf | frontend/components/PostForm.tsx:60 | a body has a `message` iff it is a message body or a successful trends payload (backend/posts/views.py:185), and then it is that field |
| PostFormView.Submittable | frontend/components/PostForm.tsx:104-226 | the browser submits the form iff title and content are not empty (`required`, lines 111 and 126) and every counter field is at least 0 (`min="0"`, lines 182, 196, 210, 224) |
| PostFormView.NewFormNeedsTitleAndContent | frontend/components/PostForm.tsx:104-129 | the empty new-post form cannot be submitted; once a title and content are typed it can |
| PostFormView.NegativeCounterBlocksSubmit | frontend/components/PostForm.tsx:176-224 | typing any negative integer into a counter blocks the submission (`min="0"`) |
| PostFormView.BackendFailuresShowGenericText | backend/posts/views.py:40-67 | 404 and 400 answers carry no `message`, so the form shows "An error occurred" |
| PostFormView.PostForm.constructor | frontend/components/PostForm.tsx:13-25 | the default form, not loading, no error, not closed |
| PostFormView.PostForm.LoadPost | frontend/components/PostForm.tsx:27-41 | in edit mode the form becomes the prefill of the post; otherwise it is unchanged |
| PostFormView.PostForm.HandleChange | frontend/components/PostForm.tsx:67-75 | the form becomes the one-field update; nothing else changes |
| PostFormView.PostForm.BeginSubmit | frontend/components/PostForm.tsx:43-57 | no call and no change while the button is disabled (line 250) or the form fails the browser's checks (`required` title and content, `min="0"` counters); else loading set, error cleared, and the one call for this form |
| PostFormView.PostForm.FinishSubmit | frontend/components/PostForm.tsx:48-64 | success: the alert for the path taken and the dialog closed; failure: the error text and the dialog open; loading false either way |
| PostFormView.PostForm.HandleSubmit | frontend/components/PostForm.tsx:43-65 | while loading, or when the title or content is empty or a counter negative (lines 111, 126, 182-224), nothing happens; otherwise exactly one call and loading false at the end; on success the dialog closes with "Post updated successfully!" when the post has a truthy id and "Post created successfully!" otherwise; on failure the error text and no alert |
| DashboardView.ChartData | frontend/components/Dashboard.tsx:57-65 | same length and order as the entries; each value unchanged; each label the key with its first character upper-cased |
| DashboardView.ChartKeepsTotal | frontend/components/Dashboard.tsx:57-65 | the chart values add up to the counts they come from |
| DashboardView.ChartNamesAreLabels | frontend/components/Dashboard.tsx:57-65 | the bars of a count chart carry the capitalised keys, in key order |
| DashboardView.PlatformLabels | frontend/components/Dashboard.tsx:58 | the platform labels are Twitter, Instagram, Facebook, Linkedin |
| DashboardView.StatusLabels | frontend/components/Dashboard.tsx:63 | the status labels are Draft, Published, Scheduled |
| DashboardView.PlatformChartOfStats | frontend/components/Dashboard.tsx:57-60 | for any valid table the platform chart has those four labels and its bars add up to the post count |
| DashboardView.StatusChartOfStats | frontend/components/Dashboard.tsx:62-65 | for any valid table the status chart has those three labels and its bars add up to the post count |
| DashboardView.RecentBody | frontend/components/Dashboard.tsx:198 | at most the first 100 characters (Unicode scalar values) of the content, then "..." always |
| DashboardView.SliceColor | frontend/components/Dashboard.tsx:135-137 | every slice gets one of the four colours |
| DashboardView.SliceColorsCycle | frontend/components/Dashboard.tsx:8 | colours repeat every four slices and neighbouring slices differ |
| DashboardView.ScreenFor | frontend/components/Dashboard.tsx:45-55 | spinner iff loading; "No data available" iff loaded without statistics; otherwise the statistics |
| DashboardView.Dashboard.constructor | frontend/components/Dashboard.tsx:11-14 | nothing loaded, loading |
| DashboardView.Dashboard.FetchDashboardData | frontend/components/Dashboard.tsx:21-30 | loading ends either way; the statistics on success, and a failure keeps the old ones |
| DashboardView.Dashboard.FetchExternalData | frontend/components/Dashboard.tsx:32-43 | both payloads stored iff both fetches succeed, one failure leaving both unchanged; afterwards, if both succeeded, the trends panel (line 146) shows iff the statistics screen is up (lines 45-55) and the trends payload reports success, and otherwise it shows iff it showed before; the weather panel (line 165) likewise with the weather payload's `success` |
| DashboardView.OpenWithFailures | frontend/components/Dashboard.tsx:16-55 | when the statistics cannot be loaded the screen says "No data available" and shows neither panel, whatever the external fetches return |
| DashboardView.OpenWithData | frontend/components/Dashboard.tsx:16-55 | when the statistics load the screen shows them, and each panel shows exactly when both external fetches succeed and its own payload reports success |

## Left out

- Network, database and framework machinery: HTTP transport, the Django ORM and DRF serializers themselves. Requests and outcomes are parameters.
- Timestamps: `created_at` and `updated_at` are not stored. The table's order stands for `ordering = ['-created_at']`. The `timestamp` of the trends payload is omitted.
- Models.EngagementRate: an exact real; does not model Python's `round(..., 2)`.
- Views.Average: an exact real; does not model the floating-point `Avg`.
- Models.FieldErrors: does not model DRF's trimming of surrounding white space, the coercion of counter values from strings, `max_length=20` on platform and status (implied by the choices), the parsing of `scheduled_time` as a date-time, the refusal of a title or content containing a NUL character, or the integer range that `IntegerField` gives `likes`, `shares`, `comments` and `impressions` (a value outside it is a 400 naming that counter); the range depends on the database backend, which is not part of this model.
- Views.PostTable.Retrieve, Views.PostTable.Update, Views.PostTable.PartialUpdate, Views.PostTable.Destroy: a primary key that is not an integer is out of scope, although each of them looks it up with a `get` that catches only `DoesNotExist`. The model's keys are integers.
- Views.FetchSocialTrends: does not model a JSON decode failure or a missing `id`/`title`/`body` key (a Python exception in the source). The `api_key` parameter is read and never used, so it is left out.
- Weather, health check and weekly report (`fetch_weather_data`, `health_check`, `AnalyticsViewSet.weekly_report`): these pass through foreign payloads or depend on the clock. Only the weather payload's `success` flag is modelled, because the dashboard reads it.
- Text.Lower and Text.Capitalize: ASCII only; do not model Unicode case mapping.
- DashboardView.RecentBody: counts Unicode scalar values, while `substring(0, 100)` counts UTF-16 code units. Content with characters outside the Basic Multilingual Plane (emoji, for instance) is cut earlier by the source than by the model, and the source can cut through a surrogate pair, which a Dafny string cannot hold.
- Text.ParseInt: reads integers exactly; does not model the loss of precision of JavaScript numbers beyond 2^53, or `Infinity`.
- Rendering: markup, CSS, icons, charts, number and date formatting, the platform and status badge colours, and the tab toggle of `frontend/app/page.tsx`.
- `alert`, `confirm` and `console.error`: `confirm` is a `bool` parameter, alerts are returned strings, and logging is omitted.
- Asynchrony: each handler is one atomic step, except that submission is split into `BeginSubmit` and `FinishSubmit` to expose the in-flight state. The interleaving of the dashboard's two concurrent loads is not modelled.
- `frontend/lib/api.ts`: its calls are modelled as `ApiCall` values and `Fetched` outcomes. `getById` and `partialUpdate` are never called by the components.
