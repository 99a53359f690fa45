# Trial queue of the mouse-movement preference experiment

The application shows a participant 24 images, one per page, and records each answer. It is a small Flask app (`app.py`). When the module loads, it builds the trial list `TRIALS`:

- the images `item1.jpg` to `item12.jpg` on the `'left'` side;
- the images `item13.jpg` to `item24.jpg` on the `'right'` side.

It then shuffles that list once. Three request handlers work on the participant's session, which has two entries (`trials`, the queue still to be shown, and `results`, the answers so far):

- `index` restarts the session with a copy of `TRIALS` and no results.
- `trial` records a POSTed answer. It then pops the **last** queued trial and shows it, or redirects to `complete` once the queue is empty. With no queue at all it bounces to `index`.
- `complete` shows the results.

This Dafny project models that state machine and proves what it promises.

- `decimal.dfy` (module `Decimal`): the decimal rendering Python's f-string uses for `item{i}.jpg`, proved injective.
- `trials.dfy` (module `Trials`): `IMAGES`, the unshuffled `TRIALS` comprehension, counting by image and by side, and the invariance of those counts under permutation. `random.shuffle` is CPython's in-place Fisher–Yates pass over an `array`, taking the random draws as a parameter. The lemmas cover every order the shuffle can produce.
- `flow.dfy` (module `Flow`): the session as a `datatype SessionState` (an absent key is `None`). `TrialStep` is the specification of one `trial` request. `class Session` holds the two entries as fields, and its methods `Index`, `Trial` and `Complete` update them in place. Each method is proved against `IndexState`, `TrialStep` and `CompleteView`.
- `runs.dfy` (module `Runs`): a sequence of `trial` requests in one session. It proves the order in which the trials are shown, how many are shown and what ends up in `results`.

The model covers the trial queue of `app.py`: the construction and shuffle of `TRIALS` and the three handlers.

## Model

| member | source | states |
|---|---|---|
| `Decimal.NatToString` | app.py:8 | the text of a number is non-empty and all digits, it reads back (most significant digit first) as that number, and it has no leading zero; it is one character long exactly below 10 |
| `Decimal.NatToStringInjective` | app.py:8 | different numbers give different decimal texts |
| `Trials.ImageName` | app.py:8 | the f-string `f'item{i}.jpg'`: `item`, the decimal text of the number, `.jpg` |
| `Trials.ImageNameExamples` | app.py:8 | the names of items 1, 13 and 24 are `item1.jpg`, `item13.jpg` and `item24.jpg` |
| `Trials.ImageNameInjective` | app.py:8 | `item<a>.jpg` and `item<b>.jpg` are the same file name only when a = b |
| `Trials.ImageNamesDiffer` | app.py:8 | distinct item numbers give distinct file names |
| `Trials.Images` | app.py:8 | IMAGES: the 24 names for items 1 to 24, in order |
| `Trials.Placed` | app.py:9-10 | one comprehension: every image of the given slice paired with the given side, in order |
| `Trials.BaseTrials` | app.py:9-10 | TRIALS before the shuffle: the first twelve images on the left, followed by the other twelve on the right |
| `Trials.BaseTrialAt` | app.py:8-10 | the unshuffled list has 24 trials; the i-th shows `item<i+1>.jpg`, on the left exactly when i < 12 |
| `Trials.BaseImagesDistinct` | app.py:8-10 | no two unshuffled trials share an image |
| `Trials.BaseImageCounts` | app.py:8-10 | each of `item1.jpg` .. `item24.jpg` occurs exactly once in the unshuffled list |
| `Trials.BasePositionCounts` | app.py:9-10 | the unshuffled list has exactly 12 left and 12 right trials |
| `Trials.BaseTrialSide` | app.py:9-10 | an unshuffled trial is left iff its image is `item1.jpg` .. `item12.jpg`, right iff it is `item13.jpg` .. `item24.jpg` |
| `Trials.TailPermutation` | app.py:11 | removing one copy of the same trial from two permutations of each other leaves permutations |
| `Trials.CountPermutation` | app.py:11 | reordering a list changes no count by image or by side |
| `Trials.ShuffledTrialCounts` | app.py:8-11 | any permutation of the unshuffled list has 24 trials, every image once, 12 per side |
| `Trials.ShuffledTrialSides` | app.py:8-11 | in any such permutation, left trials are exactly the images 1..12 and right trials exactly the images 13..24 |
| `Trials.Shuffle` | app.py:11 | the in-place shuffle leaves the array a permutation of what it was |
| `Trials.LoadTrials` | app.py:8-11 | the loaded TRIALS array is fresh and a permutation of the unshuffled list |
| `Flow.SessionState` | app.py:15-16 | the session's `trials` and `results` entries, either of which may be absent |
| `Flow.WellFormed` | app.py:15-16 | a session that has a `trials` queue also has a `results` list, as `index` sets them together |
| `Flow.Submitted` | app.py:24-31 | the records a request appends: the one `data` record of a POST (image, position, choice, timestamp), none for a GET |
| `Flow.IndexState` | app.py:15-16 | after `index` the queue is the whole of TRIALS and the results are empty |
| `Flow.TrialStep` | app.py:20-37 | no queue: redirect to `index`, nothing changes; a POST appends exactly its own record and a GET appends nothing, earlier results kept; empty queue: redirect to `complete`, queue unchanged; otherwise the last trial is removed and shown and the rest stays in place; a POST into a session without results fails and changes nothing; well-formed sessions stay well-formed |
| `Flow.CompleteView` | app.py:39-41 | `complete` renders exactly the recorded results, and fails when the session has none |
| `Flow.Session.constructor` | app.py:21-22 | a new session holds neither key, so its first `trial` request bounces to `index` |
| `Flow.Session.Index` | app.py:14-17 | overwrites both entries with a copy of TRIALS and an empty list, whatever they held; TRIALS itself is unchanged; answers with a redirect to `trial` |
| `Flow.Session.Trial` | app.py:19-37 | updates the fields in place exactly as `TrialStep` prescribes and returns its answer |
| `Flow.Session.Complete` | app.py:39-41 | returns the answer `CompleteView` prescribes, changing nothing |
| `Runs.Run` | app.py:19-37 | a run of requests gives one answer per request and keeps the session well-formed |
| `Runs.Popped` | app.py:36 | the queue left by `pop()`: the queue minus its last trial, which is the last element of the original |
| `Runs.StepFromQueue` | app.py:24-37 | one request in a session with a queue and results: an empty queue redirects to `complete`, otherwise the last trial is popped and shown; the POST's record is appended either way |
| `Runs.RunFromQueue` | app.py:31-37 | from any queue, n requests remove min(n, length) trials from the end of the queue and append every POST's record in order |
| `Runs.RunFromQueueAnswers` | app.py:33-37 | from any queue, the i-th request shows the i-th trial from the end while any is left, and redirects to `complete` from then on |
| `Runs.RunAnswersUnfold` | app.py:19-37 | the answers of a run are the first request's answer followed by the answers of the rest |
| `Runs.ReversedPrefix` | app.py:36-37 | the first n trials of the reversed queue are its last trial followed by the first n-1 of the reversed remainder |
| `Runs.RunFromQueueRendered` | app.py:36-37 | the trials shown by such a run are the queue back to front, cut at the number of requests |
| `Runs.SessionFromIndex` | app.py:15-37 | after `index`, the pages shown are TRIALS in reverse, never more than there are trials, and the results are exactly the POSTs' records |
| `Runs.RecordsOfPosts` | app.py:24-31 | n POSTs contribute exactly n records |
| `Runs.FullSession` | app.py:15-37 | `index`, one GET and 24 POSTs: the first 24 answers show TRIALS back to front, the 25th redirects to `complete`, the queue is empty and exactly 24 results are stored |
| `Runs.FullSessionShowsEveryImage` | app.py:8-37 | in such a session over the shuffled TRIALS, the pages shown are a permutation of the 24 trials, each image exactly once |
| `Runs.ReversedPermutes` | app.py:36-37 | showing a list back to front shows the same trials |

## Left out

- Flask routing, `render_template`, `redirect`/`url_for` and the secret key: the handlers return an `Outcome` value that names the page or redirect.
- Reading the form fields: a POST's `image`, `position` and `choice` are fields of the `Post` request. A form with a missing field (which Flask answers with 400) is not modelled.
- Flask's cookie-session serialisation, including whether the in-place `append`/`pop` on nested session lists is persisted: the session is an ordinary mutable object.
- `time.time()`: the timestamp is a `real` supplied with each POST.
- Trials.Shuffle: the random draws are a parameter (`draws[i]` is the index in `0..i` that CPython's `randbelow(i + 1)` would return). The contract states only that the result is a permutation, not that every order is equally likely.
- The contents of the `complete` page beyond the results it is given, and the `PORT` environment lookup with its default of 10000 together with `app.run`: these are presentation and environment plumbing.
- Concurrent requests from the same session: each handler is modelled as one atomic step.
