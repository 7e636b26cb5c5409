# GenBlog core: view-state controller, post store and create-post form

GenBlog is a single-page blog front-end. Its root component holds four pieces of state:
the current screen (feed, post detail, create form, analytics), the in-memory list of
posts, the selected post and whether the mobile menu is open. Its handlers change that
state in response to clicks. The create form holds a topic, a tone, a busy flag and an
error message. Its generate handler asks a hosted language model for a post and either
hands the new post to the root component, which prepends it to the store, or shows a
fixed error message. The store starts from three sample posts; the analytics panel shows
a post count and a views total over the store next to a static seven-day series.

The project models this in Dafny:

- `Types.dfy`: the `BlogPost` record (ten fields), `AnalyticsData` (three fields), the
  four-variant `AppView`, and `Option` for the nullable fields.
- `Text.dfy`: JavaScript's `trim` (ECMAScript whitespace and line terminators) and the
  decimal `toString` of a non-negative integer, with the inverse reading and round trip.
- `Constants.dfy`: the seed posts and the seven analytics points, verbatim.
- `App.dfy`: the root component. A pure `AppState`, an `Event` per handler, `Step`
  (one handler's effect) and `Run` (a sequence of events). Lemmas cover the states
  reachable from the initial one. The class `AppController` holds the four fields, and
  each method ensures its new state is `Step` of the old. The count and views aggregates
  are here too: the `reduce` is a left fold, proved equal to a plain recursive sum.
- `CreatePost.dfy`: the form. A pure `FormState` with `Begin` (the state while the
  request is outstanding), `Finish` and `Generate`, the button-enable conditions, and
  `NewPost`, which builds the record. The class `CreatePostForm` holds the four fields.
  Its `HandleGenerate` takes the service's outcome as a parameter. On success it calls
  the parent's `HandleCreatePost` exactly once.

The external generation call is one abstract outcome: `Generated(title, excerpt,
content, category)` or `GenerationFailed`. The clock reading (`Date.now()`), the
formatted date string and the random image seed (an integer in 0..999, which is what
`Math.floor(Math.random() * 1000)` yields) are method parameters.

The model follows what the code does, including where a reader might expect otherwise:

- Navigation does not clear the selected post, and neither do Back and Cancel (App.tsx:27-31, 132, 136). Only a click changes the selection.
- Entering the detail view with no selected post is not rejected. The detail view simply does not render (App.tsx:131). The model proves that the source's own controls never reach that state, because every `navigateTo` call site passes another view.
- The form shows the same message for every failure it catches (components/CreatePost.tsx:39-40): a missing key, a service error, an empty response or text that is not JSON. The model has one failure outcome for these. A response that parses but lacks a field is not caught at all (see "## Left out").

## Model

| member | source | states |
|---|---|---|
| Text.TrimStart | components/CreatePost.tsx:17 | the result is a suffix of the input, only whitespace was dropped, and it does not start with whitespace |
| Text.Trim | components/CreatePost.tsx:17 | `topic.trim()` is no longer than the topic, and the result neither starts nor ends with whitespace (emptiness and the slice shape are in `TrimEmptyIffBlank` and `TrimIsSlice`) |
| Text.TrimEnd | components/CreatePost.tsx:17 | the result is a prefix of the input, only whitespace was dropped, and it does not end with whitespace |
| Text.TrimIsSlice | components/CreatePost.tsx:17 | `trim` returns a contiguous slice of the input framed on both sides by whitespace only |
| Text.BlankTrimStart | components/CreatePost.tsx:17 | a string of whitespace loses every character to the leading trim |
| Text.TrimEmptyIffBlank | components/CreatePost.tsx:17 | `topic.trim()` is empty (falsy) exactly when every character of the topic is whitespace, both directions |
| Text.NatToDecimal | components/CreatePost.tsx:26 | `toString` of a non-negative integer is a non-empty string of decimal digits with no leading zero unless it is "0" |
| Text.DecimalRoundTrip | components/CreatePost.tsx:26 | reading the decimal rendering back gives the original number |
| Text.DecimalInjective | components/CreatePost.tsx:26 | two numbers have the same decimal rendering exactly when they are equal |
| Constants.InitialPosts | constants.ts:3-52 | three seed posts with ids "1", "2", "3" in that order, pairwise distinct, views 1240, 890 and 3400, all non-negative |
| Constants.InitialAnalytics | constants.ts:54-62 | seven points labelled Mon through Sun in order, every views and visitors count non-negative |
| App.ReduceViews | App.tsx:172 | the `reduce` fold from accumulator `acc` gives `acc` plus the sum of the view counters |
| App.TotalPosts | App.tsx:167 | the Total Posts figure is the store length; `PrependAggregates` proves a create raises it by one and `ReachablePosts` that it is the creations plus 3 |
| App.TotalViews | App.tsx:172 | the Total Views figure (fold from 0) equals the sum of all view counters |
| App.TotalViewsNonNegative | App.tsx:172 | non-negative counters give a non-negative total |
| App.TotalViewsAppend | App.tsx:172 | the total over a concatenation of stores is the sum of their totals |
| App.PrependAggregates | App.tsx:167-172 | prepending a post raises Total Posts by one and Total Views by its counter, so a zero-view post leaves Total Views unchanged |
| App.SeedAggregates | constants.ts:3-52 | the seed store gives Total Posts 3 and Total Views 5530 |
| App.Step | App.tsx:15-31 | one handler's effect: only a created post changes the store, by prepending, and only a click changes the selection; the per-handler lemmas below give each field |
| App.FromUi | App.tsx:39-208 | the events the UI can raise: everything but a navigation to the detail view, which no `navigateTo` call site passes (a reading of the call sites, not a proof); `EnabledIsFromUi` proves every on-screen control raises such an event, and `RunKeepsSelectionInvariant` that such events preserve the selection invariant |
| App.Enabled | App.tsx:114-137 | which control is on screen: a feed card (a stored post) only on the feed, back only on the detail view with a post, cancel only on the form; the create callback on any screen. `EnabledIsFromUi` shows it never navigates to the detail view |
| App.Initial | App.tsx:10-13 | the initial state satisfies both invariants: no detail view without a selection, and no selection outside the store |
| App.PostClickSelects | App.tsx:15-19 | a click selects the post and opens the detail view, leaving the store and the menu as they were |
| App.CreatePrepends | App.tsx:21-24 | creating a post gives one more post, the new one at index 0, old post i unchanged at index i+1, the feed shown, selection and menu untouched |
| App.NavigateKeepsSelection | App.tsx:27-31 | navigation sets the view and closes the menu; the store and the selected post are untouched |
| App.MenuToggleTwice | App.tsx:74 | the menu button flips the menu, and two presses restore the original state |
| App.BackAndCancelGoHome | App.tsx:132-136 | the back and cancel callbacks show the feed and change nothing else |
| App.EnteringReadPost | App.tsx:15-31 | the only events that can enter the detail view are a post click and a navigation to the detail view |
| App.EnabledIsFromUi | App.tsx:114-137 | a control rendered on screen never navigates directly to the detail view |
| App.EnabledRunIsFromUi | App.tsx:39-208 | every event of a sequence raised by on-screen controls is one the UI can raise |
| App.RunKeepsSelectionInvariant | App.tsx:15-31 | events the UI can raise preserve "detail view implies a selected post" over any sequence |
| App.ReachableSelectionInvariant | App.tsx:131-133 | in every state reachable from mount, the detail view has a selected post, so the render guard never hides it |
| App.RunKeepsSelectionStored | App.tsx:123-126 | events raised by on-screen controls keep the selected post inside the store |
| App.ReachableSelectionStored | App.tsx:114-137 | in every state reached through on-screen controls, the selected post is one of the stored posts and the detail view has a post to show |
| App.RunPosts | App.tsx:21-24 | after any events, the store is the created posts, newest first, above the starting store, whose order is kept |
| App.ReachablePosts | App.tsx:11-24 | the reachable store is the created posts above the seed posts; its count is creations plus 3 and its views total is the created posts' total plus 5530 |
| App.CreateOneScenario | App.tsx:21-24 | from the seed, opening the form and creating one zero-view post gives 4 posts, the new one first, seed id "3" last, 5530 views |
| App.CancelScenario | App.tsx:136 | from the seed, opening the form and cancelling leaves the three seed posts and shows the feed |
| App.AppController.constructor | App.tsx:10-13 | mount state: the feed, the seed posts, no selection, the menu closed |
| App.AppController.HandlePostClick | App.tsx:15-19 | selects the post and shows the detail view; the store and the menu are unchanged; the invariant is kept |
| App.AppController.HandleCreatePost | App.tsx:21-24 | the store becomes the new post followed by the old store; the feed is shown; nothing else changes |
| App.AppController.NavigateTo | App.tsx:27-31 | sets the view and closes the menu; the store and the selection are unchanged |
| App.AppController.ToggleMenu | App.tsx:74 | flips the menu flag and changes nothing else |
| App.AppController.Back | App.tsx:132 | shows the feed and leaves the store, selection and menu unchanged |
| App.AppController.Cancel | App.tsx:136 | shows the feed and leaves the store, selection and menu unchanged |
| App.AppController.RenderedView | App.tsx:131-133 | under the invariant the rendered screen is always the current view: the detail view is never suppressed |
| CreatePost.ImageUrl | components/CreatePost.tsx:34 | the image URL is the fixed prefix followed by the seed in decimal digits, which read back as the seed; a leading zero occurs only for seed 0, whose URL is exactly the prefix followed by "0" |
| CreatePost.NewPost | components/CreatePost.tsx:25-36 | the post copies the four generated fields and sets author "AI Assistant", read time "3 min read", views 0, the given date and image, and an id that is exactly the decimal string of the timestamp (no leading zero) and reads back as it |
| CreatePost.NewPostIdsDistinct | components/CreatePost.tsx:26 | two generated posts have the same id exactly when their timestamps are equal |
| CreatePost.GenerateEnabled | components/CreatePost.tsx:99 | the Generate button is enabled exactly when the form is idle and the topic has a non-whitespace character |
| CreatePost.CancelEnabled | components/CreatePost.tsx:92 | Cancel is enabled exactly when idle; `BusyDisablesButtons` and `FailureIsRetryable` prove it is off while a request is outstanding and on after a failure |
| CreatePost.InitialForm | components/CreatePost.tsx:11-14 | the form opens with the first offered tone, "Informative"; `InitialFormFacts` adds that Generate is off and Cancel on |
| CreatePost.Begin | components/CreatePost.tsx:19-20 | the state while the request is outstanding; `BusyDisablesButtons` proves both buttons are off and the error cleared |
| CreatePost.Finish | components/CreatePost.tsx:39-43 | the state once the request settles; `GenerateFails` and `GenerateSucceeds` prove it is idle, with the fixed message exactly on failure |
| CreatePost.Generate | components/CreatePost.tsx:16-44 | the handler's effect on the form keeps topic and tone, is the identity for a blank topic and otherwise ends idle |
| CreatePost.Created | components/CreatePost.tsx:25-38 | a post is passed on exactly when the topic is not blank and generation succeeded, and it has 0 views and the default author |
| CreatePost.BlankTopicDoesNothing | components/CreatePost.tsx:17 | with a blank topic the handler leaves the form unchanged and creates nothing |
| CreatePost.GenerateSucceeds | components/CreatePost.tsx:23-43 | on success exactly the built post is passed on, the error stays cleared, the form is idle, and topic and tone are kept |
| CreatePost.GenerateFails | components/CreatePost.tsx:39-43 | on failure nothing is passed on, the fixed message is shown, the form is idle, and topic and tone are kept |
| CreatePost.FailureIsRetryable | components/CreatePost.tsx:39-43 | after a failure, both Generate and Cancel are enabled again |
| CreatePost.BusyDisablesButtons | components/CreatePost.tsx:92-99 | while the request is outstanding, neither Generate nor Cancel is enabled, and the error is cleared |
| CreatePost.GenerateKeepsInput | components/CreatePost.tsx:16-44 | a tone from the offered five stays one of them through the handler (that topic and tone are kept is `Generate`'s own contract) |
| CreatePost.InitialFormFacts | components/CreatePost.tsx:11-14 | the opened form has Generate disabled (empty topic) and Cancel enabled |
| CreatePost.CreatedPostKeepsTotalViews | components/CreatePost.tsx:35 | a created post raises Total Posts by one and leaves Total Views unchanged |
| CreatePost.CreatePostForm.constructor | components/CreatePost.tsx:11-14 | mount state: empty topic, "Informative", idle, no error |
| CreatePost.CreatePostForm.SetTopic | components/CreatePost.tsx:58 | replaces the topic and nothing else |
| CreatePost.CreatePostForm.SetTone | components/CreatePost.tsx:67-70 | assigns one of the five listed tones and nothing else |
| CreatePost.CreatePostForm.BeginGenerate | components/CreatePost.tsx:17-20 | returns without change for a blank topic; otherwise sets the busy flag and clears the error |
| CreatePost.CreatePostForm.FinishGenerate | components/CreatePost.tsx:22-43 | on success builds the post and calls the parent's create handler once, so the parent's state takes one create step; on failure sets the message and leaves the parent unchanged; either way ends idle |
| CreatePost.CreatePostForm.HandleGenerate | components/CreatePost.tsx:16-44 | the whole handler: the form's new state is `Generate` of the old, the post passed on is `Created`, and the parent prepends exactly that post or is unchanged |

## Left out

- The content-generation service (services/geminiService.ts) is not part of this model. It is a thin wrapper over an SDK and an environment read. It appears only as the abstract outcome `Generation`, which stands for a complete four-string result or one of the failures the form catches. The unchecked parse is described below.
- The prompt text and the untrimmed topic and tone the handler sends to the service are left out. They only affect the service's outcome, which is a parameter here.
- Clock, locale and randomness (`Date.now()`, `toLocaleDateString`, `Math.random()`) are parameters. The model relies on `toString` rendering the millisecond timestamp in plain decimal, which holds below 10^21.
- `window.scrollTo` and all markup, styling and charting are left out, including the analytics chart, the PostCard and PostDetail renderers, and number formatting with `toLocaleString`.
- Asynchrony is not modelled: the generate handler is one sequential step, split at the `await` into `BeginGenerate` and `FinishGenerate`. A create callback that arrives on another screen is modelled, since `Enabled` allows `PostCreated` anywhere.
- The form is not re-created on each visit. The source unmounts `CreatePost` whenever the view leaves the create form (App.tsx:135-137), so every visit starts from the mount state (topic "", tone "Informative", no error). The single `CreatePostForm` object of the model keeps topic, tone and error across Cancel and navigation instead.
- App.ReachablePosts and App.ReachableSelectionStored hold only for generations that do not overlap. The header buttons stay enabled during a request (App.tsx:52-69), so a user can leave the form, reopen it and start a second request. Both `handleCreatePost` closures then captured the same `posts`. The later `setPosts([newPost, ...posts])` (App.tsx:22) drops the earlier post, and a selection of that post falls outside the store. The model applies each create to the current store.
- A service response that parses as JSON but lacks one of the four fields, or holds a non-string, is not caught. services/geminiService.ts:36 returns `JSON.parse(text)` unchecked, and components/CreatePost.tsx:27-30 copies `undefined` into the post passed to `onPostCreated`. The abstract outcome `Generated` always carries four strings, so the model excludes this case.
- `views` is a JavaScript double. The model uses unbounded integers, since every value the program creates is a small integer.
- App.AppController.NavigateTo: requires a view other than the detail view. Every call site passes the feed, the analytics panel or the create form (App.tsx:39-208). The pure `Step` still models what `navigateTo(READ_POST)` would do.
- Id uniqueness in the store is not enforced by the code. The model proves only that different timestamps give different ids (`CreatePost.NewPostIdsDistinct`).
