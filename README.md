# nordstone-demo screen state, in Dafny

This project models the local state logic of three screens of the nordstone-demo
mobile app. The authentication, document-store, file-storage and HTTP services
behind those screens are not modelled. Each service answer reaches a screen as an
explicit event, and its outcome is a parameter of that event.

- `gallery.dfy` (module `Gallery`) is the photo gallery.
  - Merging a snapshot into the post list is a pure function, `Merge`, with its lemmas. The updater inserts by key: a post already listed under the document's id takes only the new `path`, and any other document is prepended as `{id, ...data}`. The lemmas prove that the update happens in place, that a new document is prepended, that unique ids stay unique, that the set of ids grows by exactly the merged ids, and that merging the same document twice equals merging it once. `MergeSnapshot` is the `forEach` loop over a snapshot, proved against `MergeAll`.
  - The listener's query orders documents by date, newest first. Each new document is prepended in turn, so a snapshot of new documents is listed in reverse: on the first load the posts appear oldest first, not in the query's order. Posts that arrive in later snapshots are prepended ahead of them, so in general the list follows no date order. `MergeAllPrependsNew` and `SnapshotListedOldestFirst` prove this.
  - The pick / upload / save flow is the class `GalleryScreen`, with fields `image`, `uploading`, `saving` and `toEdit`. It also holds the uploads and the writes still in flight.
  - Each handler reads the state as it was when the handler was called, as a React closure does. So the `uploadPhoto` call inside `pickImage` sees the `image` and `toEdit` held before that pick. On a gallery with no image held, a pick therefore only holds the new image, and pressing the upload button is what uploads it.
  - An upload's completion saves under the `toEdit?.id` that the upload captured.
- `auth.dfy` (module `Auth`) is the login form.
  - The class `LoginForm` has the fields `register`, `forgot`, `sent`, `loading`, the credentials and `emailValidate`.
  - `authorize` either stops at its guard or sends exactly one request. The request stays pending until an `AuthSettled` event.
  - The object invariant states two facts. First, `emailValidate` always equals `EmailValidity(email)`: false for five characters or fewer, otherwise `validateEmail(email)`. Second, `loading` holds exactly while a request is pending.
  - `validateEmail` is not part of this model. The form takes it as an arbitrary predicate.
  - A failed sign-in or account creation writes back the credentials that the request was sent with. This matches the handler's `{...creds, error}`.
  - The five-second reset is a `TimerFired` event. The effect on `sent` also runs on mount, so the form starts with one timer armed. The effect re-arms a timer whenever `sent` changes, including after a reset that cleared `sent`. As a result, the timer armed on mount wipes whatever was typed in the first five seconds. A timer that clears `sent` also re-arms a timer, which wipes the form again five seconds later.
- `calculator.dfy` (module `Calculator`) is the calculator.
  - The class `CalculatorScreen` has the two inputs, an operator from the three-entry table, the dropdown flag and the result.
  - The invariant says that the operator is always an entry of the table.
  - `FetchResult` returns the request body it posts. The result changes only on a response without `error`.
- `wrappers.dfy` (module `Wrappers`) defines `Option` and JavaScript truthiness of an optional string. The source's `if (id)` and `image ?` tests treat `""` like `null`.

## Model

| member | source | states |
|---|---|---|
| Gallery.FindIndex | screens/Gallery.tsx:182 | returns the first index whose post has the id, or -1 exactly when no post has it |
| Gallery.Merge | screens/Gallery.tsx:181-195 | the list grows by at most one, and afterwards some entry carries the document's id and path |
| Gallery.MergeAll | screens/Gallery.tsx:180-196 | merging a snapshot of n documents grows the list by at most n |
| Gallery.MergeUpdatesInPlace | screens/Gallery.tsx:182-191 | when the first post with the id is at index i, the length is unchanged, entry i keeps its id and date and takes the new path, and every other index is unchanged |
| Gallery.MergeUpdatesUnique | screens/Gallery.tsx:184-190 | with unique ids, the merge is exactly the list with only that post's path replaced |
| Gallery.MergePrependsNew | screens/Gallery.tsx:193-194 | an unlisted id gives `{id, ...data}` at index 0 followed by the old list in order, one longer |
| Gallery.MergeIds | screens/Gallery.tsx:182-194 | the listed ids after a merge are the old ids plus the document's id |
| Gallery.MergePreservesUnique | screens/Gallery.tsx:182-194 | if ids are unique before a merge, they are unique after it |
| Gallery.MergeIdempotent | screens/Gallery.tsx:180-196 | merging the same document twice gives the same list as merging it once |
| Gallery.MergeAllPreservesUnique | screens/Gallery.tsx:180-196 | a whole snapshot merge keeps ids unique |
| Gallery.MergeAllIds | screens/Gallery.tsx:180-196 | after a snapshot merge the ids are the old ids plus the snapshot's ids |
| Gallery.NewPosts | screens/Gallery.tsx:193-194 | a snapshot's documents as `{id, ...data}` posts, entry i being document n-1-i |
| Gallery.MergeAllPrependsNew | screens/Gallery.tsx:175-196 | when the snapshot's ids are distinct and none is listed, the result is the documents in reverse order as `{id, ...data}`, followed by the old list |
| Gallery.SnapshotListedOldestFirst | screens/Gallery.tsx:175-196 | a date-descending snapshot of distinct new documents merged into an empty list is listed with dates ascending |
| Gallery.MergeSnapshot | screens/Gallery.tsx:179-197 | the forEach loop yields `MergeAll`, keeps unique ids unique and lists exactly the old ids plus the snapshot's ids |
| Gallery.EditId | screens/Gallery.tsx:164 | `toEdit?.id`: absent without an edit target, otherwise the target's id |
| Gallery.ButtonActionFor | screens/Gallery.tsx:268 | the button uploads exactly when an image is held, and otherwise opens the picker |
| Gallery.SaveRequestFor | screens/Gallery.tsx:102-131 | a truthy id gives an update of that post's path alone; otherwise a new post with that path and the current time as date |
| Gallery.EditSaveChangesOnlyPath | screens/Gallery.tsx:103-112 | saving an edit of a listed post issues an update of its path, and merging the stored document back changes only that post's path |
| Gallery.GalleryScreen.constructor | screens/Gallery.tsx:44-53 | the screen starts with no posts, no image, no edit target, and nothing uploading or saving |
| Gallery.GalleryScreen.OnSnapshot | screens/Gallery.tsx:179-197 | posts become `MergeAll` of the old posts and the snapshot; ids stay unique; the flow state is unchanged |
| Gallery.GalleryScreen.UploadPhoto | screens/Gallery.tsx:140-152 | nothing happens unless an image is held and a user is signed in; otherwise, if the image file is read, `uploading` is set and the upload starts with the current edit id, and if the read fails the call rejects and nothing starts |
| Gallery.GalleryScreen.PickImage | screens/Gallery.tsx:75-93 | binds `toEdit` to {id, date} first; a cancelled pick changes nothing else; a pick holds the image and uploads only what was held before, under the edit target held before; `uploading` ends false unless that upload's file read rejected, which skips the final `setUploading(false)` |
| Gallery.GalleryScreen.EditPost | screens/Gallery.tsx:240 | a long press binds `toEdit` to the pressed post's id and date and runs the pick, with the same image, `uploading` and stale-closure upload outcomes as `PickImage` |
| Gallery.GalleryScreen.PressUpload | screens/Gallery.tsx:268 | with an image held it uploads that image for the current edit target, setting `uploading` when the file read succeeds for a signed-in user; otherwise it opens the picker with nothing bound, and a pick leaves `uploading` false |
| Gallery.GalleryScreen.UploadFailed | screens/Gallery.tsx:159 | an upload error is only logged: `uploading`, `saving`, the image and the posts are unchanged |
| Gallery.GalleryScreen.SavePostData | screens/Gallery.tsx:102-138 | issues exactly the write `SaveRequestFor` names and changes nothing else |
| Gallery.GalleryScreen.UploadCompleted | screens/Gallery.tsx:160-166 | clears `uploading`, sets `saving`, and once a URL is known saves under the edit id the upload captured |
| Gallery.GalleryScreen.SaveSettled | screens/Gallery.tsx:113-136 | a successful update clears `saving`, `toEdit` and `image`; a successful create clears `saving` and `image` and keeps `toEdit`; a failure changes nothing |
| Auth.EmailValidity | screens/Auth.tsx:59-65 | false for emails of five or fewer characters; otherwise equal to `validateEmail(email)` |
| Auth.MissingCredentials | screens/Auth.tsx:68 | in forgot mode only an empty email is missing; otherwise an empty email or an empty password is |
| Auth.RequestFor | screens/Auth.tsx:77-107 | exactly one request: a reset if `forgot`, otherwise account creation if `register`, otherwise sign-in, carrying the credentials read |
| Auth.SubmitEnabled | screens/Auth.tsx:226 | the button is enabled exactly when `emailValidate` holds and `loading` is false |
| Auth.SubmitNeedsEmail | screens/Auth.tsx:60-68 | whenever the button is enabled, the email has more than five characters, so the guard's empty-email case cannot fire |
| Auth.LoginForm.constructor | screens/Auth.tsx:22-36 | all flags are false, the credentials are empty, nothing is pending, and one reset timer is armed by the mount effect |
| Auth.LoginForm.EditEmail | screens/Auth.tsx:159-161 | replaces the email, clears the error, keeps the password and revalidates the email |
| Auth.LoginForm.EditPassword | screens/Auth.tsx:172-174 | replaces the password, clears the error and keeps the email |
| Auth.LoginForm.Authorize | screens/Auth.tsx:67-77 | with credentials missing it sets the mandatory-fields error and sends nothing with `loading` unset; otherwise it sets `loading` and sends exactly `RequestFor` |
| Auth.LoginForm.PressSubmit | screens/Auth.tsx:219-226 | a disabled button does nothing; an enabled one stops at the guard only for an empty password outside forgot mode, and otherwise sends the request, records it as pending and keeps the error |
| Auth.LoginForm.AuthSettled | screens/Auth.tsx:79-109 | clears `loading` whatever the outcome; a successful reset sets `sent`; a failed sign-in or account creation stores the error and keeps the credentials the request was sent with |
| Auth.LoginForm.TimerFired | screens/Auth.tsx:112-118 | clears `sent`, `forgot`, the email, the password and the error; re-arms a timer exactly when `sent` changed |
| Auth.LoginForm.ToggleRegister | screens/Auth.tsx:233-236 | flips `register` and always clears `forgot`, touching nothing else |
| Auth.LoginForm.OpenForgot | screens/Auth.tsx:184-206 | available only outside register and forgot mode, where the link is shown; enters forgot mode, touching nothing else |
| Auth.LoginForm.CloseForgot | screens/Auth.tsx:123-133 | available only in forgot mode, where the chevron is shown; leaves forgot mode, touching nothing else |
| Calculator.Body | screens/Calculator.tsx:41-44 | `action` is the operator's symbol and `numbers` are the two inputs, converted, in order |
| Calculator.ResultAfter | screens/Calculator.tsx:46-53 | a response without `error` shows its `result`; an error response or a failed request leaves the result unchanged |
| Calculator.BodyActionIsArithmetic | screens/Calculator.tsx:14-27 | every operator in the table sends one of "+", "-", "*" |
| Calculator.CalculatorScreen.constructor | screens/Calculator.tsx:28-31 | the result is 0, the operator is "+", the dropdown is closed and both inputs are empty |
| Calculator.CalculatorScreen.EditFirst | screens/Calculator.tsx:71 | replaces the first input and keeps the second |
| Calculator.CalculatorScreen.EditSecond | screens/Calculator.tsx:135 | replaces the second input and keeps the first |
| Calculator.CalculatorScreen.OpenDropdown | screens/Calculator.tsx:76 | opens the dropdown, touching nothing else |
| Calculator.CalculatorScreen.SelectOp | screens/Calculator.tsx:88-124 | available only while the dropdown is open, its items being hidden otherwise; sets the operator to the chosen table entry and closes the dropdown |
| Calculator.CalculatorScreen.FetchResult | screens/Calculator.tsx:33-54 | posts a body whose action is the operator's symbol and whose numbers are the inputs in order, then shows `ResultAfter` of the response; the operator stays in the table |

## Left out

- The authentication, document-store, file-storage and HTTP client calls are not modelled. Each of their answers is an event whose outcome is a parameter: `AuthSettled`, `OnSnapshot`, `UploadCompleted`/`UploadFailed`, `SaveSettled`, the `read` outcome of the image-file read in `UploadPhoto`, `PickImage`, `EditPost` and `PressUpload`, and the `response` of `FetchResult`.
- A successful sign-in or account creation is followed by navigation away from the form. Navigation is outside the model, so the form just keeps its state.
- Upload progress (`bytesTransferred / totalBytes * 100`) is not modelled, because it is floating-point. The loader it drives is display only.
- `takePicture` is not modelled. The camera reference is never set on this screen, so that handler can never act.
- The camera and media-library permission requests are not modelled, because they are platform services whose only local effect is an alert.
- The random document id of a created post and the random storage file name are not modelled, because they are opaque fresh values. `Date.now()` is the `now` parameter.
- Alerts and console logging are not modelled. Neither changes state.
- Display-only details are not modelled: the item opacity, the button colours and the loader.
- The keyboard listeners are not modelled.
- Auth.LoginForm.EditEmail and Auth.LoginForm.EditPassword can be called in any state. The model does not capture that the inputs are replaced by the confirmation text while `sent` holds, or that the password field is hidden in forgot mode.
- Auth.LoginForm.PressSubmit and Auth.LoginForm.ToggleRegister can be called in any state. The model does not capture that the submit and toggle buttons are hidden while the keyboard is shown (screens/Auth.tsx:209-244), because the keyboard's visibility is not part of the state modelled.
- Email lengths are counted in characters. JavaScript counts UTF-16 code units, which differs for characters outside the Basic Multilingual Plane.
- Calculator.CalculatorScreen.FetchResult treats the result as an integer. Floating-point results, `parseInt`'s NaN for malformed input, and a response that lacks `result` are not modelled.
- Unmounting and unsubscribing the listeners are not modelled.
- Several handlers fold their waits into one step, and no other event can interleave inside that step. `PickImage` and `EditPost` cover the picker's answer and the file read of their `uploadPhoto` call. `UploadPhoto` and `PressUpload` cover the file read (`fetch`, `blob`). `UploadCompleted` covers the download-URL lookup. `FetchResult` covers the request and the JSON decoding. The other service answers are events of their own: upload completion or failure, write settlement, authentication settlement and timers.
- The interleavings inside those folded steps are not modelled. One example: a write that settles while the picker is open clears `toEdit`, so the next upload creates a post instead of updating one. Another: two calculator requests answered out of order leave the older result shown.
- The upload button's handler leaves a rejected file read unhandled. The model records the rejection and changes nothing else.
- `screens/Notification.tsx` and `screens/LiveText.tsx` are not part of this model. Neither are the presentational components, navigation and Firebase configuration.
