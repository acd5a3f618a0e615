# Course upload and checkout decisions, modelled in Dafny

This project models the two pieces of sequencing and decision logic in the
chime_v2 React client:

1. **Chunked upload and course creation** (`CreateCourse.js`).
   - `uploadFile` cuts a file into 1 MiB chunks.
   - It posts them one at a time, in order.
   - It returns the server's data only when the reply to the *last* chunk says
     `"File assembled successfully."`.
   - `handleSubmit` uploads the image, then the course videos, quiz videos and
     live-session videos. Each video is first renamed `title_name`.
   - It collects every returned `fileName` into the multipart payload under
     its key, appends the seven scalar fields and posts once to
     `category/create`.
   - On HTTP 201 it clears the form.
2. **Checkout and purchased-robot decisions** (`Checkout.js`, `SingleRobotPur.js`).
   - The telegram-failure redirect, the country default, the navigate-home,
     cart-fetch and Telegram-view conditions, and `checkoutLoader`.
   - `s_robLoader`, the account-status effect (banned / inactive), the robot
     fetch that settles the loading flag, and the render guards.

Files, one module each:

| file | module | what it holds |
|---|---|---|
| `js_values.dfy` | `JsValues` | `Option` (null versus a value) and JavaScript truthiness of strings |
| `chunking.dfy` | `Chunking` | chunk count and chunk boundaries, and the partition lemmas |
| `chunked_upload.dfy` | `ChunkedUpload` | `uploadFile`: the specification `Upload`, the loop `UploadFile`, and its lemmas |
| `course_submission.dfy` | `CourseSubmission` | `handleSubmit` / `handleFileUpload`: the plan of uploads, the run `Fold`, the `FormData` and `CourseCreator` classes |
| `user_state.dfy` | `UserState` | the user, the `details` record, fetch outcomes and loader results shared by both loaders |
| `checkout.dfy` | `Checkout` | the checkout page's rules over `localStorage` (a map) and the users slice of the store (a record) |
| `robot_purchase.dfy` | `RobotPurchase` | `s_robLoader`, the status reaction, and the `RobotPage` class with its three state flags |

How the environment is modelled:

- **Upload server.** It is an oracle. `reply(k)` is the outcome of the request
  for chunk k: `Thrown`, or `Answered(data)`. For a whole submission,
  `server(u)(k)` is the reply to chunk k of the u-th upload.
- **Create request.** Its outcome is a parameter: a status code, or `Rejected`
  (a throw).
- **Effects.** `alert`, `navigate` and `window.location` become returned
  values or `Effect` values, emitted in order.
- **Files.** A file is its name plus its byte length. A chunk request carries
  the byte range `[start, end)`. `Chunking.ChunksRebuildFile` shows that the
  slices of an actual byte sequence join back to that sequence.
- **Component state.** React state becomes class fields. In `CourseCreator`,
  the form's fields are one `FormState` record, `form`.

Behaviour of the code that a reader might not expect, modelled as written:

- The image is uploaded with the course title but without an `upload_type`
  field; only the videos carry one.
- When an upload yields nothing, the code does not stop on purpose. It reads
  `.fileName` of `undefined` and throws out of `handleSubmit`. Nothing further
  is uploaded or posted, but the loading flag stays set. See "## Findings".
- An upload that ends without the last-chunk confirmation returns nothing and
  raises no alert. A chunk that throws also returns nothing, but alerts.
- No rule takes precedence over another. The telegram redirect lives in
  `Checkout.js`, and the banned/inactive reactions live in `SingleRobotPur.js`.
  Each is evaluated on its own, and the model keeps them separate.
- After a 201 the code resets `category` to `""`, not to its initial
  `"courses"`. So a second course created without choosing a category again
  is posted to `/create`. `CourseSubmission.Cleared` states this reset as
  written.

## Model

| member | source | states |
|---|---|---|
| `Chunking.TotalChunks` | src/admin/components/admin/courses/CreateCourse.js:43-44 | the chunk count n covers the file (n·C ≥ size), one chunk fewer would not ((n−1)·C < size), and n = 0 exactly for an empty file |
| `Chunking.TotalChunksIsLeast` | src/admin/components/admin/courses/CreateCourse.js:44 | every chunk count whose capacity covers the file is at least `TotalChunks`: it is the ceiling of size / 1 MiB |
| `Chunking.ChunkNonEmpty` | src/admin/components/admin/courses/CreateCourse.js:47-50 | every chunk the loop visits is non-empty, lies inside the file, is at most 1 MiB, and is exactly 1 MiB unless it is the last |
| `Chunking.ChunksAdjacent` | src/admin/components/admin/courses/CreateCourse.js:48-49 | chunk k ends exactly where chunk k+1 starts: no gap, no overlap |
| `Chunking.ChunksSpanFile` | src/admin/components/admin/courses/CreateCourse.js:47-49 | for a non-empty file the first chunk starts at 0 and the last ends at the file's size |
| `Chunking.ChunkOfOffset` | src/admin/components/admin/courses/CreateCourse.js:47-50 | every byte offset lies in chunk offset / C, and in no other chunk |
| `Chunking.JoinedPrefix` | src/admin/components/admin/courses/CreateCourse.js:47-50 | the slices of chunks 0..n−1 joined in order are the file's prefix up to the end of chunk n−1 |
| `Chunking.ChunksRebuildFile` | src/admin/components/admin/courses/CreateCourse.js:47-50 | the slices of all chunks joined in order are exactly the file's bytes |
| `ChunkedUpload.UploadFile` | src/admin/components/admin/courses/CreateCourse.js:42-84 | the counter loop returns the same result, sends the same chunk requests, and alerts exactly as the specification `Upload` does |
| `ChunkedUpload.UploadFromShape` | src/admin/components/admin/courses/CreateCourse.js:47-84 | from any chunk k on: requests are numbered consecutively from 0, never more than the chunk count; data is returned iff every chunk was answered and the last answer confirms assembly, and then it is that answer's data, every chunk was sent and nothing alerted; the run alerts iff some chunk from k on is the first to throw |
| `ChunkedUpload.UploadContract` | src/admin/components/admin/courses/CreateCourse.js:47-82 | chunk k carries number k, the same total and filename, and title/type only when truthy; the data is returned iff every chunk was answered and the reply to the LAST chunk is the confirmation (an earlier confirmation does not stop the loop); a returned result means every chunk was sent and nothing alerted; the upload alerts iff some chunk's request throws |
| `ChunkedUpload.UploadStopsAtThrow` | src/admin/components/admin/courses/CreateCourse.js:66-82 | if the request for chunk i throws, the upload alerts, returns nothing, and has sent exactly chunks 0..i |
| `ChunkedUpload.ThrowFrom` | src/admin/components/admin/courses/CreateCourse.js:66-82 | the same from any chunk k ≤ i on |
| `ChunkedUpload.UploadUnconfirmed` | src/admin/components/admin/courses/CreateCourse.js:73-84 | if every chunk is answered but the last answer is not the confirmation, every chunk is sent, nothing alerts, and the result is none |
| `ChunkedUpload.UnconfirmedFrom` | src/admin/components/admin/courses/CreateCourse.js:73-84 | the same from any chunk k on |
| `ChunkedUpload.EmptyFileYieldsNothing` | src/admin/components/admin/courses/CreateCourse.js:44-47 | a zero-byte file sends nothing, alerts nothing, and returns none |
| `ChunkedUpload.SentRangesTile` | src/admin/components/admin/courses/CreateCourse.js:47-56 | the byte ranges sent start at 0, are non-empty and inside the file, are consecutive, and end at the file's size when every chunk went out |
| `CourseSubmission.PlanOrder` | src/admin/components/admin/courses/CreateCourse.js:91-129 | the uploads run as: the image (title only, no type), then course videos, quiz videos and live-session videos, each in input order |
| `CourseSubmission.Names` | src/admin/components/admin/courses/CreateCourse.js:94-115 | entry i of the collected names is the `fileName` returned by upload i, under that upload's key |
| `CourseSubmission.PlanFold` | src/admin/components/admin/courses/CreateCourse.js:91-129 | running the whole plan is running its four phases one after the other |
| `CourseSubmission.AbortedSkipsRest` | src/admin/components/admin/courses/CreateCourse.js:91-129 | once an upload has come back empty, the later phases change nothing |
| `CourseSubmission.FoldAppend` | src/admin/components/admin/courses/CreateCourse.js:97-129 | running two lists of uploads back to back is running their concatenation |
| `CourseSubmission.FoldAborted` | src/admin/components/admin/courses/CreateCourse.js:105-110 | after an upload has returned nothing, no further upload starts and nothing is appended |
| `CourseSubmission.FoldAllSucceed` | src/admin/components/admin/courses/CreateCourse.js:91-129 | when the first n uploads return data, exactly they have run, their names are appended in order, and their chunks are sent one upload after another |
| `CourseSubmission.FoldFirstFailure` | src/admin/components/admin/courses/CreateCourse.js:91-129 | when upload j is the first to return nothing, the run stops right after starting it: later uploads never start, and no later chunk is sent |
| `CourseSubmission.FirstFailure` | src/admin/components/admin/courses/CreateCourse.js:91-129 | if not every upload succeeds, there is a first one that returns nothing |
| `CourseSubmission.SubmitAllUploaded` | src/admin/components/admin/courses/CreateCourse.js:131-150 | when every upload returns data, every planned upload ran, one create request goes to `category/create` with the names in upload order followed by the seven scalar fields, and the outcome is Created exactly on 201 |
| `CourseSubmission.SubmitAbortsAtFirstFailure` | src/admin/components/admin/courses/CreateCourse.js:91-148 | when upload j is the first to return nothing, the submission aborts: no create request, only uploads 0..j started, only their chunks sent |
| `CourseSubmission.AbortedIffSomeUploadFails` | src/admin/components/admin/courses/CreateCourse.js:91-148 | a submission aborts if and only if some planned upload returns nothing |
| `CourseSubmission.ZeroByteImageAborts` | src/admin/components/admin/courses/CreateCourse.js:91-94 | a zero-byte image makes the submission abort after that single upload, with no chunk sent and no create request |
| `CourseSubmission.UploadAndRecord` | src/admin/components/admin/courses/CreateCourse.js:105-115 | one awaited upload then one append of its `fileName` under the call's key, or the abort when it returns nothing |
| `CourseSubmission.FormData.Append` | src/admin/components/admin/courses/CreateCourse.js:94 | an append adds exactly one entry at the end |
| `CourseSubmission.CourseCreator.constructor` | src/admin/components/admin/courses/CreateCourse.js:10-22 | the initial state: empty fields, category "courses", no files, both flags false |
| `CourseSubmission.CourseCreator.SyncAuthor` | src/admin/components/admin/courses/CreateCourse.js:26-30 | the author becomes the admin's name when that name is truthy; nothing else changes |
| `CourseSubmission.CourseCreator.HandleFileUpload` | src/admin/components/admin/courses/CreateCourse.js:97-117 | the loop over files matches the specification of its batch: renamed uploads in order, names appended under the kind's key, stopping at the first upload that returns nothing |
| `CourseSubmission.CourseCreator.UploadImage` | src/admin/components/admin/courses/CreateCourse.js:91-95 | the image step matches the specification of the image upload and appends `image_name` |
| `CourseSubmission.CourseCreator.UploadAll` | src/admin/components/admin/courses/CreateCourse.js:91-129 | the upload phase matches the specification of the whole plan, and the payload holds exactly the collected names |
| `CourseSubmission.CourseCreator.AppendScalars` | src/admin/components/admin/courses/CreateCourse.js:131-137 | the seven scalar fields are appended after the names, in order |
| `CourseSubmission.CourseCreator.PostCreate` | src/admin/components/admin/courses/CreateCourse.js:139-170 | one post to `category/create`; Created exactly on 201, with the form cleared, the success modal shown and navigation to /admin/courses; otherwise the form and modal unchanged; loading false on every path |
| `CourseSubmission.CourseCreator.ResetForm` | src/admin/components/admin/courses/CreateCourse.js:153-162 | the ten reset fields are emptied and the author is kept |
| `CourseSubmission.CourseCreator.HandleSubmit` | src/admin/components/admin/courses/CreateCourse.js:86-171 | as written: the outcome, uploads, chunks and create request are those of `Submit`; on Aborted the form is unchanged and loading stays true; on Created the form is cleared; on Failed the form is unchanged; loading is false whenever the post was reached |
| `CourseSubmission.CourseCreator.HandleSubmitGuarded` | src/admin/components/admin/courses/CreateCourse.js:86-171 | as evidently intended: the same outcome, uploads and create request as `Submit`, and loading false on every path, Aborted included |
| `Checkout.TelegramRedirectOnce` | src/pages/Checkout.js:29-35 | once the effects are persisted, evaluating the rule again emits nothing, and no key other than "telegram" changes |
| `Checkout.PersistSetItem` | src/pages/Checkout.js:26-34 | after `setItem(k, v)`, `getItem(k)` yields v and every other key yields what it did before |
| `Checkout.TelegramFailureOutcome` | src/pages/Checkout.js:28-37 | storage and location are untouched unless the status is "failed", the message is the missing-user message and the stored flag is "true"; then the flag reads "false" and the page is at the support URL |
| `Checkout.TelegramViewIndependentOfRedirect` | src/pages/Checkout.js:22-37 | the redirect fires the same whether or not the Telegram view is shown, and the view does not depend on status or message |
| `Checkout.CountryUnaffectedByTelegram` | src/pages/Checkout.js:34-46 | the telegram rule never changes the country the page shows |
| `Checkout.CountryOrDefault` | src/pages/Checkout.js:44-47 | the country is the saved value when it is present and non-empty, otherwise "Nigeria"; it is never empty |
| `Checkout.CartRequestOnlyWithName` | src/pages/Checkout.js:50-54 | the cart request `fetch?email=<name>` is issued iff a stored user has a non-empty name, so the email it carries is never empty, "undefined" or "null" |
| `Checkout.LoaderFeedsPage` | src/pages/Checkout.js:62-66 | after a load with a truthy body the store holds that body's details, so the page goes home iff no user is stored |
| `Checkout.CheckoutLoaderOutcome` | src/pages/Checkout.js:120-151 | redirect iff no user ("/login", exactly then) or the fetch throws; a redirect leaves the store as it was; the store changes only on a truthy body; a request goes out iff a user is signed in |
| `Checkout.CheckoutLoaderKeepsUser` | src/pages/Checkout.js:120-151 | the loader never changes the signed-in user |
| `Checkout.CheckoutLoaderIdempotent` | src/pages/Checkout.js:120-151 | loading twice with the same answer gives the same store, result and request as loading once |
| `RobotPurchase.RobotLoaderDataOnlyWithUser` | src/components/dashboard/users-courses/robots/SingleRobotPur.js:145-159 | the loader returns data iff a user is signed in and the fetch answered |
| `RobotPurchase.LoaderDrivesStatus` | src/components/dashboard/users-courses/robots/SingleRobotPur.js:34-47 | given what the loader hands over: the banned reaction iff a signed-in user's answered record says "banned", the modal iff it says "inactive", loading cleared iff a record came back |
| `RobotPurchase.StatusReaction` | src/components/dashboard/users-courses/robots/SingleRobotPur.js:34-47 | truthy data clears loading; "banned" alerts "Unauthorized user" and navigates to /; "inactive" opens the modal; any other status does neither; never both |
| `RobotPurchase.RobotPage.constructor` | src/components/dashboard/users-courses/robots/SingleRobotPur.js:11-15 | loading starts true, the modal closed, no robot |
| `RobotPurchase.RobotPage.StatusEffect` | src/components/dashboard/users-courses/robots/SingleRobotPur.js:34-59 | the flags change exactly as `StatusReaction` says, and the alert and navigation it emits are its; with account data but no robot yet the page shows "No data available" and no modal, even for an inactive account; with a robot it shows the detail view carrying the modal flag |
| `RobotPurchase.RobotPage.RobotFetched` | src/components/dashboard/users-courses/robots/SingleRobotPur.js:17-59 | an answer stores its robot (possibly none), a throw keeps the robot, and loading ends either way, so "Loading..." is never shown afterwards; an empty answer shows "No data available", a robot shows its detail view |
| `RobotPurchase.RobotPage.CloseModal` | src/components/dashboard/users-courses/robots/SingleRobotPur.js:53-55 | the modal closes, nothing else changes, and the rendered page shows no modal |

## Left out

- HTTP, axios (`adminBase`, `adminCustomFetch`, `userFetch`, `cartFetch`), react-query and the Redux store are not modelled. Their answers are parameters: a reply oracle for uploads, a status or throw for the create request, a fetch outcome for the loaders, the users slice as a record.
- The byte contents of files, `File`/`Blob` slicing and `FormData` encoding are not modelled. A chunk is a byte range, and the payload is an ordered list of key/value pairs.
- `Math.ceil` works on JavaScript doubles in the source. The model uses exact integers, which agree for every size below 2^53 bytes.
- The renamed file's `type` and `lastModified` are not modelled; only its name and size matter to the upload.
- `fileName` in a server reply is modelled as a string. A reply without it would make the source append `"undefined"`.
- `alert`, `console.error`, `navigate` and `window.location` are emitted values, not behaviour. `console.error` is dropped.
- React scheduling is not modelled: state setters are immediate assignments, and effects run when the model's methods are called. This covers `useEffect` dependencies and batched updates.
- The 60 000 ms success-modal timer (CreateCourse.js:32-40), `window.scrollTo` (Checkout.js:58-60) and `e.preventDefault()` are left out. So are all JSX layout, Tailwind classes and framer-motion animations.
- `src/components/checkout/PaymentBtns.js` is not part of this model. It holds only markup and two callbacks that pass constant strings.
- Checkout's cart data (`total_amount`, `products`) and the page's `useLoaderData` destructuring are only rendered, so they are not modelled. The model states when the cart fetch is enabled and the request it sends.
- The contents of `<InactiveM/>` and the robot's `slug` URL are not modelled. The detail view records only whether the modal is shown inside it.
- `JSON.parse` of the stored "user" is not modelled. The parsed user is a parameter.
- Uploads with a `type` other than the three kinds, which the `else if` chain would skip, are not modelled. `handleSubmit` passes only those three.

## Findings

| source | as written | input that shows it | evidently intended | confidence | as-written member | corrected member |
|---|---|---|---|---|---|---|
| src/admin/components/admin/courses/CreateCourse.js:91-115 | when `uploadFile` returns `undefined`, reading `.fileName` throws outside the `try`/`finally`. Nothing is posted, but `setIsLoading(false)` never runs, so the "Uploading in Progress" overlay stays up | a form whose image has 0 bytes (0 chunks, so `uploadFile` returns `undefined`); or any chunk request that throws | stop the submission without posting, and clear the loading flag on every path | not executed | `CourseSubmission.CourseCreator.HandleSubmit` (Aborted ⇒ isLoading) with `CourseSubmission.ZeroByteImageAborts` | `CourseSubmission.CourseCreator.HandleSubmitGuarded` (¬isLoading on every path) |
