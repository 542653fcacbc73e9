# Complaint desk: list and submission controllers

This project models the two pieces of the complaint web application that hold logic. The
rest of the application is layout.

- **The administrator's list controller** (`AdminDashboard`, a React component). It keeps a
  cache of complaints, a status selection, a priority selection, a search term and a
  loading flag. From these it derives the filtered view that it renders. After the remote
  store answers, it reloads the cache, rewrites the status of one complaint or drops one
  complaint.
- **The submission controller** (`ComplaintForm`). It keeps a draft and a busy flag. It
  refuses a draft with an empty required field without contacting the store. It sends the
  draft otherwise, and resets it only when the store accepts it.
- **The record types** (`complaint.ts`): `Complaint`, `NewComplaint` and the three constant
  lists `CATEGORIES`, `PRIORITIES` and `STATUSES`.

Layout:

| file | module | contents |
|---|---|---|
| `complaint.dfy` | `ComplaintTypes` | `Priority` and `Status` as datatypes, so a complaint can only hold a member of each set. The `Complaint` and `NewComplaint` records, with `user_email` as an `Option`. The constant lists and the `"all"` sentinel. |
| `admin_dashboard.dfy` | `AdminDashboard` | The filtered view, the cache updates and the badge lookups as functions, with lemmas about them. The `ListController` class, whose handlers take the store's answer as an input. A worked example. |
| `complaint_form.dfy` | `ComplaintForm` | The initial draft, the required-field check and the `SubmissionController` class. |
| `sequences.dfy` | `Sequences` | `Filter`, the model of `Array.prototype.filter`, and what is proved about it: order, membership, fusion, commutation, length. |
| `text.dfy` | `Text` | `Lower` (models `toLowerCase`) and `Contains` (models `includes`). |
| `wrappers.dfy` | `Wrappers` | `Option`. |

The remote store is an input everywhere. A load receives a `FetchReply`: rows, possibly
null, or an error. An update, a delete or an insert receives a `bool` saying whether the
store accepted it. The browser's `confirm()` dialog becomes a `bool` argument of
`DeleteComplaint`. The optional `onSuccess` prop becomes the flag `hasOnSuccess` of the
form controller. Each handler reports the error shown to the user as an
`Option<ListError>` or an `Option<SubmitError>`. `DeleteComplaint` also says whether a
request was sent. The form handlers return the record that was sent, and how many times
`onSuccess` was called.

The submit handler awaits the insert. The model splits it at that point:
`BeginSubmit` runs up to the request and `FinishSubmit` runs after the reply.
`HandleSubmit` runs the two in sequence. This way the model can state that the form is
busy while the request is outstanding.

Three points where the code's behaviour is not what one might assume:

- `category` could be taken for an enumerated field, since the form offers only
  `CATEGORIES`. `complaint.ts` types it as a plain string, and the form starts it at `''`.
  So `Complaint.category` is a `string`, and `CATEGORIES` is a constant list of strings.
- One might expect a delete to remove exactly one record. The code keeps every record
  whose id differs (`filter`), so it removes every record with that id.
  `DeleteRemovesEveryMatch` states this. `DeleteRemovesExactlyOne` proves it means one
  record when ids are unique.
- The filtered view behaves as a computed value, but the component keeps it in a state
  variable and refreshes it from an effect whenever the cache or a selection changes. The
  model makes it a function of the controller's state,
  `ListController.FilteredComplaints`. This is the value the effect leaves behind.

## Model

| member | source | states |
|---|---|---|
| `Sequences.Filter` | src/components/AdminDashboard.tsx:105-123 | The result keeps only elements that satisfy the predicate. An element is in the result exactly when it is in the input and satisfies the predicate. The result is no longer than the input. |
| `Sequences.FilterIsSubsequence` | src/components/AdminDashboard.tsx:108 | Filtering only drops elements: the result is a subsequence of the input, in the same order. |
| `Sequences.FilterCommute` | src/components/AdminDashboard.tsx:107-121 | Applying two filters in either order gives the same sequence. |
| `Sequences.FilterChain3` | src/components/AdminDashboard.tsx:107-121 | Three successive filters equal one filter by the conjunction of their predicates. |
| `Sequences.FilterLength` | src/components/AdminDashboard.tsx:84 | The length of a filtered sequence is the number of elements that satisfy the predicate. |
| `Text.Lower` | src/components/AdminDashboard.tsx:117-119 | Lowercasing keeps the length, turns each upper-case ASCII letter into its lower-case letter, and changes no other character. |
| `Text.LowerIdempotent` | src/components/AdminDashboard.tsx:117-119 | Lowercasing twice gives the same string as lowercasing once. |
| `Text.Contains` | src/components/AdminDashboard.tsx:117-119 | `includes` is true exactly when the needle occurs at some position of the string. |
| `Text.ContainsLower` | src/components/AdminDashboard.tsx:117-119 | An occurrence is still an occurrence after both strings are lowercased. |
| `ComplaintTypes.CategoriesDistinct` | src/types/complaint.ts:21 | `CATEGORIES` has five values, pairwise distinct. |
| `ComplaintTypes.PrioritiesEnumerate` | src/types/complaint.ts:22 | `PRIORITIES` is `Low, Medium, High`. It lists every priority exactly once. |
| `ComplaintTypes.StatusesEnumerate` | src/types/complaint.ts:23 | `STATUSES` is `Pending, In Progress, Resolved`. It lists every status exactly once. |
| `ComplaintTypes.NamesAreDistinct` | src/types/complaint.ts:6-7 | Distinct priorities have distinct names, and so do distinct statuses. No name is the `"all"` sentinel, so a selection denotes at most one value. |
| `AdminDashboard.FilteredViewAsChain` | src/components/AdminDashboard.tsx:105-123 | Skipping an inactive filter gives the same view as applying a step that accepts everything. |
| `AdminDashboard.FilteredViewIsConjunction` | src/components/AdminDashboard.tsx:105-123 | The view is the cache filtered once by "passes every active filter". |
| `AdminDashboard.FilteredViewMembership` | src/components/AdminDashboard.tsx:107-121 | A complaint is in the view exactly when it is in the cache and passes the status, priority and search filters that are active. |
| `AdminDashboard.FilteredViewIsSubsequence` | src/components/AdminDashboard.tsx:105-123 | The view is a subsequence of the cache, in cache order. |
| `AdminDashboard.InactiveFiltersShowAll` | src/components/AdminDashboard.tsx:105-115 | With selections `'all'`, `'all'` and `''`, the view is the whole cache. |
| `AdminDashboard.FilterOrderIrrelevant` | src/components/AdminDashboard.tsx:107-121 | Each of the six orders of the three filter steps gives the view. |
| `AdminDashboard.SearchIsCaseInsensitive` | src/components/AdminDashboard.tsx:115-120 | Two search terms that lowercase to the same string give the same view. |
| `AdminDashboard.SearchFindsVerbatimOccurrence` | src/components/AdminDashboard.tsx:116-120 | A term that occurs as written in the title, description or category matches. |
| `AdminDashboard.WithStatus` | src/components/AdminDashboard.tsx:52-54 | Cache after a status update: same length and order. Every record with the id has the new status and every other field unchanged. Records with other ids are identical. |
| `AdminDashboard.LastStatusUpdateWins` | src/components/AdminDashboard.tsx:52-54 | Two updates of the same id leave the same cache as the second alone. |
| `AdminDashboard.UpdateOfAbsentIdIsNoOp` | src/components/AdminDashboard.tsx:52-54 | Updating an id that no cached record carries leaves the cache unchanged. |
| `AdminDashboard.WithoutId` | src/components/AdminDashboard.tsx:84 | Cache after a delete: a record is kept exactly when it was cached and its id differs. The rest keep their order (subsequence). |
| `AdminDashboard.DeleteRemovesEveryMatch` | src/components/AdminDashboard.tsx:84 | A delete shortens the cache by the number of records that carry the id. |
| `AdminDashboard.DeleteRemovesExactlyOne` | src/components/AdminDashboard.tsx:84 | With unique ids and the id present, a delete removes exactly one record. |
| `AdminDashboard.DeleteIsIdempotent` | src/components/AdminDashboard.tsx:84 | Deleting the same id twice leaves the same cache as deleting it once. |
| `AdminDashboard.DeleteCommutesWithView` | src/components/AdminDashboard.tsx:84-123 | The view of the cache after a delete is the view before it, minus that id. |
| `AdminDashboard.PriorityColor` | src/components/AdminDashboard.tsx:126-133 | The destructive badge exactly for `High`. The warning badge exactly for `Medium`. The muted badge for every other string, `Low` and unknown values alike. |
| `AdminDashboard.StatusColor` | src/components/AdminDashboard.tsx:135-142 | The success badge exactly for `Resolved`. The warning badge exactly for `In Progress`. The muted badge for every other string. |
| `AdminDashboard.BadgesDistinguishValues` | src/components/AdminDashboard.tsx:126-142 | Each of the three priorities has its own badge, and so does each of the three statuses. |
| `AdminDashboard.ExampleStatusFilter` | src/components/AdminDashboard.tsx:107-109 | For the two-complaint example, the status selection `Pending` shows only the pending complaint. |
| `AdminDashboard.ExampleSearch` | src/components/AdminDashboard.tsx:115-121 | For the same example, the term `billing` finds only `Billing issue`. |
| `AdminDashboard.ExampleStatusUpdate` | src/components/AdminDashboard.tsx:52-54 | Setting complaint 2 to In Progress changes only that record's status. |
| `AdminDashboard.ListController.constructor` | src/components/AdminDashboard.tsx:14-19 | Initial state: empty cache, loading, both selections `'all'`, empty search term. |
| `AdminDashboard.ListController.FilteredComplaints` | src/components/AdminDashboard.tsx:104-124 | The rendered list is the cache filtered once by "passes every active filter": the passing complaints, each as often as it is cached, in cache order. |
| `AdminDashboard.ListController.FetchComplaints` | src/components/AdminDashboard.tsx:22-41 | Rows replace the cache, and null rows give the empty cache. An error keeps the cache and reports `FetchError`. Loading ends on both paths, and the selections do not change. |
| `AdminDashboard.ListController.UpdateComplaintStatus` | src/components/AdminDashboard.tsx:43-69 | Acceptance sets the cache to `WithStatus` of the old cache. Refusal keeps the cache and reports `UpdateError`. No other field changes. |
| `AdminDashboard.ListController.DeleteComplaint` | src/components/AdminDashboard.tsx:71-98 | A request is sent exactly when the user confirmed. Confirmed and accepted: the cache becomes `WithoutId` of the old cache. Declined: cache unchanged, nothing reported. Refused: cache unchanged, `DeleteError` reported. |
| `AdminDashboard.ListController.SetStatusFilter` | src/components/AdminDashboard.tsx:187 | Sets the status selection and nothing else. |
| `AdminDashboard.ListController.SetPriorityFilter` | src/components/AdminDashboard.tsx:204 | Sets the priority selection and nothing else. |
| `AdminDashboard.ListController.SetSearchTerm` | src/components/AdminDashboard.tsx:181 | Sets the search term and nothing else. |
| `ComplaintForm.InitialDraft` | src/components/ComplaintForm.tsx:19-25 | Empty title, description and category. Priority `Medium`. Email present and empty. |
| `ComplaintForm.RequiredFieldsCheck` | src/components/ComplaintForm.tsx:32 | The check fails exactly when the title, description or category is empty. Priority and email do not affect it. The initial draft fails it. |
| `ComplaintForm.WhitespaceIsNotEmpty` | src/components/ComplaintForm.tsx:32 | A title, description and category made of one space pass the check. |
| `ComplaintForm.SubmissionController.constructor` | src/components/ComplaintForm.tsx:18-26 | Starts with the initial draft, not submitting. |
| `ComplaintForm.SubmissionController.SetTitle` | src/components/ComplaintForm.tsx:97 | Replaces the title of the draft, nothing else. |
| `ComplaintForm.SubmissionController.SetDescription` | src/components/ComplaintForm.tsx:154 | Replaces the description of the draft, nothing else. |
| `ComplaintForm.SubmissionController.SetCategory` | src/components/ComplaintForm.tsx:116 | Replaces the category of the draft, nothing else. |
| `ComplaintForm.SubmissionController.SetPriority` | src/components/ComplaintForm.tsx:134 | Replaces the priority of the draft, nothing else. |
| `ComplaintForm.SubmissionController.SetEmail` | src/components/ComplaintForm.tsx:109 | Sets the email of the draft to the given string, nothing else. |
| `ComplaintForm.SubmissionController.BeginSubmit` | src/components/ComplaintForm.tsx:32-46 | Incomplete draft: no request, `ValidationError` reported, draft and busy flag unchanged. Complete draft: the request is exactly the draft and the form is busy. |
| `ComplaintForm.SubmissionController.FinishSubmit` | src/components/ComplaintForm.tsx:48-75 | Acceptance resets the draft to the initial one and calls `onSuccess` once, if it was given. Refusal keeps the draft, calls nothing and reports `SubmissionError`. Afterwards the form is not busy. |
| `ComplaintForm.SubmissionController.HandleSubmit` | src/components/ComplaintForm.tsx:29-76 | The whole handler. The request is the draft exactly when the draft is complete. The draft resets only on accepted requests. `onSuccess` is called at most once, and only after acceptance. The busy flag is false after any request. |

## Left out

- The remote store's queries (the select, update, delete and insert calls) are not modelled. Their answers are inputs, and the returned rows are taken in the order they arrive. The store's `order by date_submitted desc` is not modelled.
- The insert's server-assigned `id`, `status` and timestamps are not modelled. The form only produces the `NewComplaint` it sends.
- Toasts, `console.error`, the JSX rendering, the spinner, the icons and the `date-fns` date formatting are left out. They present state and add none. Only which error is reported is kept.
- The `confirm()` dialog is a `bool` argument. Its wording and rendering are presentation.
- Interleaving of asynchronous handlers is left out. Each handler is one atomic step on the current state. The handlers in the component read the `complaints` captured when they were created, so a slow reply can overwrite a later change. The model does not capture this race.
- AdminDashboard.ListController.UpdateComplaintStatus: `newStatus` is a `Status`. The component takes a string and casts it (`as any`), so a caller outside the status selector could store any string. The selector only offers `STATUSES`.
- Text.Lower: folds only the ASCII letters `A`-`Z`. JavaScript's `toLowerCase` also folds other Unicode letters and can change a string's length. The case-insensitivity lemmas hold for this folding.
- `src/pages/Index.tsx` is not part of this model. It lays out two tabs and flips a tab name.
- The form's widgets are modelled only as the field updates they make (`SetTitle` and the others). Their rendering and the disabled state of the submit button are left out.
