# Casino roulette client: session and spin state

A Dafny model of the client-side state kept by the `App` React component of the casino
roulette front end (`src/App.jsx`). A user logs in against a scoring service, spins a
16-segment roulette wheel, and the segment's label is sent to the service as a score
increment. The service replies with a leaderboard snapshot, and it also pushes snapshots
over a socket whenever any score changes.

The model has two layers:

- `AppState` is the component's state (`leaderboard`, `userRank`, `username`, `loggedIn`,
  `mustSpin`, `prizeNumber`, `isSpinning`, plus the tab's `sessionStorage`) as one datatype.
  Every handler is a transition on it. An `Event` type and `Run` replay any sequence of
  events, and the lemmas about whole runs are stated over that.
- `AppComponent.App` is the component as a class. Its fields are updated step by step
  by methods, one per handler. Each method is proved to perform its `AppState` transition
  and to keep the invariant `AppState.Inv`:
  - `TypeUsername` performs `AppState.TypeUsername`.
  - `HandleLogin` performs `Login`.
  - `FetchLeaderboardReply` performs `LeaderboardFetched`.
  - `FetchUserRankReply` performs `UserRankFetched`.
  - `HandleSpinClick` performs `SpinClick`.
  - `HandleSpinStop` performs `SpinStop` and returns `StopRequest`.
  - `IncrementScoreReply` performs `IncrementReplied`.
  - `OnLeaderboardUpdate` performs `LeaderboardPushed`.
  - `ApplyLeaderboard` performs `ApplySnapshot`.

`Wheel` holds the catalog and the draw. `Leaderboard` holds the row type and the
first-match lookup of the user's row. `SessionStorage` holds the key/value store and
JavaScript truthiness.

Inputs that come from outside the component are parameters:

- `Math.random()` is a `Wheel.Random`, a real in [0, 1).
- Each awaited HTTP reply is a `Response` (`Ok(data)` or `Failed` for a caught error).
- A login reply also carries the username the request sent. `handleLogin` captures that
  name when Login is clicked (src/App.jsx:94, 99). The username box stays editable until
  the reply arrives, so the stored name can differ from the name on screen
  (`AppState.EditDuringLogin`).
- A socket push is a `Payload`.
- What is typed into the username box is a string.
- A page reload is the `PageReload` event. It mounts the component again over the same
  session store.

The request a spin stop sends is returned as an `IncrementRequest`.

Behaviour of the code worth knowing:

- `isSpinning` is cleared when the wheel stops, before the increment request is sent
  (src/App.jsx:121, 129).
- A snapshot without the user's row keeps the previous rank (src/App.jsx:60-62).
- Restore tests JavaScript truthiness (src/App.jsx:44), so an empty stored string counts
  as absent. A login with an empty username or token therefore does not survive a reload
  (`AppState.EmptyCredentialNotRestored`).
- `fetchLeaderboard` replaces the rows but does not recompute `userRank` (src/App.jsx:70-77).
  Only the socket handler and the increment reply look the user up
  (`AppState.FetchKeepsStaleRank`).
- The username box is on screen only before login, and the wheel and the Spin button only
  after (src/App.jsx:147-204, 234-251). `Step` ignores an event from a control that is not
  on screen.

## Model

| member | source | states |
|---|---|---|
| Wheel.DrawIndex | src/App.jsx:112 | the catalog has exactly 16 entries and the floor of `u * 16` lies in [0, 16) for every `Math.random()` value, so `wheelData[prizeNumber]` is in bounds |
| Wheel.ValueAt | src/App.jsx:124 | the label of a segment is one of the catalog's labels, a one- or two-digit decimal numeral |
| Wheel.LabelsIdentifySegments | src/App.jsx:11-28 | no two segments share a label, so the label sent identifies the segment drawn |
| SessionStorage.GetItem | src/App.jsx:42-43 | definition: `getItem` as a map lookup, `null` when the key is absent |
| SessionStorage.Truthy | src/App.jsx:44 | definition: JavaScript truthiness of a `getItem` result |
| SessionStorage.SetItem | src/App.jsx:98-99 | reading a key just written gives the written value; every other key reads as before |
| Leaderboard.FindFrom | src/App.jsx:59 | the result is the first index at or after `from` whose row has the name, and none exactly when no such row exists |
| Leaderboard.FindFirst | src/App.jsx:59 | `find` by username: the first matching index; none if and only if no row matches |
| Leaderboard.FindEntry | src/App.jsx:137 | the linear scan returns exactly the first-match index of `FindFirst` |
| Leaderboard.RankOf | src/App.jsx:59-62 | the rank of the first row with the user's name; the prior rank when no row matches |
| Leaderboard.RankOfUniqueRow | src/App.jsx:59-62 | when each user has one row, the rank shown is that row's rank wherever it lies |
| AppState.Mount | src/App.jsx:31-50 | after mounting, the user is logged in if and only if the store holds a truthy token and a truthy username; the name is then the stored one and every other field has its initial value; otherwise the initial state is kept; the invariant holds |
| AppState.TypeUsername | src/App.jsx:177 | typing sets the username and nothing else |
| AppState.Login | src/App.jsx:91-107 | a success stores the token and the name the request sent and sets `loggedIn`, changing no other field and no other key; a failure changes nothing |
| AppState.LeaderboardFetched | src/App.jsx:70-77 | a successful fetch replaces the rows and leaves the rank and every other field alone; a failure changes nothing |
| AppState.UserRankFetched | src/App.jsx:79-89 | a successful fetch sets the rank and nothing else; a failure changes nothing |
| AppState.SpinClick | src/App.jsx:109-117 | while spinning a click changes nothing; when idle it sets `prizeNumber` to the draw and both flags to true; leaderboard, rank, user and session are never touched |
| AppState.SpinStop | src/App.jsx:119-121 | both flags are cleared, the drawn index is kept, nothing else changes |
| AppState.StopRequest | src/App.jsx:124-132 | the increment is the label of segment `prizeNumber`, and the bearer is the stored token, present exactly when one is stored |
| AppState.ApplySnapshot | src/App.jsx:56-62 | a present leaderboard replaces the rows wholesale and the rank becomes the first-match rank or stays; an absent one changes nothing; no other field changes |
| AppState.LeaderboardPushed | src/App.jsx:54-64 | a push without a leaderboard changes nothing; one with a leaderboard shows exactly those rows and the rank of the user's first row, or keeps the prior rank; nothing else changes |
| AppState.IncrementReplied | src/App.jsx:135-144 | a failed reply or one without a leaderboard changes nothing; otherwise exactly its rows are shown with the rank of the user's first row, or the prior rank; nothing else changes |
| AppState.Step | src/App.jsx:41-145 | only a login reply can change the session store, a reload never leaves a spin running, and the wheel does nothing before login |
| AppState.Run | src/App.jsx:41-145 | a run without login replies leaves the session store as it was |
| AppState.StepPreservesInv | src/App.jsx:41-145 | every handler keeps the invariant: `prizeNumber` is a segment, `mustSpin == isSpinning`, a spin runs only when logged in, a logged-in user has a stored token and name |
| AppState.RunPreservesInv | src/App.jsx:41-145 | any sequence of events keeps the invariant |
| AppState.ReachableInv | src/App.jsx:31-50 | every state reachable from a mount over any stored session satisfies the invariant |
| AppState.RepeatedClicksIgnored | src/App.jsx:109-117 | any number of clicks during a spin leave the state exactly as it was, so one spin draws once |
| AppState.SpinHeldUntilStop | src/App.jsx:109-121 | until the wheel stops or the page reloads, no event clears `isSpinning` or changes `prizeNumber` |
| AppState.NoRedraw | src/App.jsx:119-131 | after a click when idle and any events other than a stop or reload, the stop clears both flags and sends the label of the segment drawn by that click |
| AppState.StopRequestCarriesToken | src/App.jsx:128-132 | whenever a spin is running, the increment request it will send carries the stored token |
| AppState.AbsentOrFailedRepliesChangeNothing | src/App.jsx:135-144 | a push or increment reply without a leaderboard, and every failed request, leave the whole state as it was |
| AppState.ReplyAndPushAgree | src/App.jsx:135-141 | the increment reply applies its payload exactly as the socket handler does |
| AppState.FetchKeepsStaleRank | src/App.jsx:73 | a fetched leaderboard holding the user's row with a new rank shows the same rows as a snapshot would, but keeps the old rank |
| AppState.LastWriteWins | src/App.jsx:54-64 | of any two snapshots the later one's rows are shown; its rank is shown when it holds the user's unique row, and when it holds no row of the user the rank set by the earlier snapshot survives |
| AppState.WellFormedSnapshotRank | src/App.jsx:59-62 | a well-formed snapshot holding the user's row shows a rank of at least 1 |
| AppState.SnapshotIdempotent | src/App.jsx:56-62 | applying the same snapshot twice equals applying it once |
| AppState.LoginSurvivesReload | src/App.jsx:97-100 | after a successful login with a non-empty name and token, a reload restores the name sent, logged in, with the same token |
| AppState.EmptyCredentialNotRestored | src/App.jsx:42-46 | a login with an empty name or token does not survive a reload |
| AppState.EditDuringLogin | src/App.jsx:91-100 | editing the name while the login request is in flight leaves the new name on screen, stores the name sent, and a reload restores the name sent |
| AppState.AliceSession | src/App.jsx:41-145 | login as "alice", a first leaderboard, a draw on segment 5 and the server's reply: the request carries "21" and the token, and rank 1 is shown |
| AppComponent.App.constructor | src/App.jsx:31-50 | the fields start at their `useState` values and the restore effect runs: the object is `Mount` of the stored session |
| AppComponent.App.TypeUsername | src/App.jsx:177 | typing on the login view sets only the username |
| AppComponent.App.HandleLogin | src/App.jsx:91-107 | performs `Login` with the name the request sent, and keeps the invariant |
| AppComponent.App.FetchLeaderboardReply | src/App.jsx:70-77 | performs `LeaderboardFetched` |
| AppComponent.App.FetchUserRankReply | src/App.jsx:79-89 | performs `UserRankFetched` |
| AppComponent.App.HandleSpinClick | src/App.jsx:109-117 | performs `SpinClick` on the fields and keeps the invariant |
| AppComponent.App.HandleSpinStop | src/App.jsx:119-133 | performs `SpinStop` and returns `StopRequest`: the request for `wheelData[prizeNumber].option` with the stored token |
| AppComponent.App.IncrementScoreReply | src/App.jsx:135-144 | performs `IncrementReplied` |
| AppComponent.App.OnLeaderboardUpdate | src/App.jsx:54-64 | performs `LeaderboardPushed` |
| AppComponent.App.ApplyLeaderboard | src/App.jsx:56-62 | performs `ApplySnapshot` on the fields, using the linear scan for the user's row |

## Left out

- Rendering, styling and the wheel widget's animation (src/App.jsx:147-327), except the
  username input's `onChange`. The segment colours in the catalog are display data and are
  not modelled.
- The password field and its input: the password is only sent to the server, whose answer
  is the `Response` given to `Login`.
- The HTTP calls and the socket connection, subscription and unsubscription. Their results
  are inputs. The restore effect and a login also start the two fetches. The model does
  not record that; their replies are the `LeaderboardReply` and `UserRankReply` events,
  which may come at any point in a run.
- The Login click itself. A login reply event carries the name its request sent. The model
  does not tie that name to the username on screen at an earlier click.
- Interleaving of the socket writer and the increment-reply writer. Each write is one
  atomic step, and the order they arrive in is the event order.
- React's batched state updates. A handler sees the state left by the previous event, so
  two clicks within one render are not modelled.
- Floating point. `Math.random()` is a real number and the draw is an exact floor.
- Logging and the `VITE_BACKEND_URL` setting (src/App.jsx:6-7).
- Server-side score and rank computation. `Leaderboard.WellFormed` states what a snapshot
  is expected to satisfy. The client never checks it; it is only assumed by
  `AppState.WellFormedSnapshotRank`.
- Response fields of the wrong shape. For example, a missing `token` would be stored as
  the string "undefined", and a `leaderboard` that is not an array may still be truthy.
  Replies are well-typed values here.
