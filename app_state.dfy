/**
 * The state of the `App` component (src/App.jsx) as one value, and each handler as a
 * transition on it. Network replies, socket pushes, `Math.random()` and the text typed
 * into the login form arrive as inputs; requests the client sends are outputs.
 */
module AppState {

  import opened Wrappers
  import opened Wheel
  import opened Leaderboard
  import opened SessionStorage

  /** The outcome of an awaited request: its response data, or a caught error. */
  datatype Response<T> = Ok(data: T) | Failed

  /** The body of a socket push or an increment-score reply; `leaderboard` may be absent. */
  datatype Payload = Payload(leaderboard: Option<seq<Entry>>)

  /** The `POST /increment-score` request a spin stop sends: the label and the bearer token. */
  datatype IncrementRequest = IncrementRequest(increment: string, bearer: Option<string>)

  /** The component's `useState` fields, plus the tab's session store. */
  datatype State = State(
    leaderboard: seq<Entry>,
    userRank: Option<int>,
    username: string,
    loggedIn: bool,
    mustSpin: bool,
    prizeNumber: int,
    isSpinning: bool,
    session: Store)

  /**
   * What every reachable state satisfies: the drawn index is a wheel segment, the two spin
   * flags never disagree, a spin only runs once logged in, and a logged-in user has a token
   * and a username in the session store. The stored name need not be the one on screen:
   * the login box stays editable while the login request is in flight.
   */
  predicate Inv(s: State)
  {
    && 0 <= s.prizeNumber < |Options|
    && s.mustSpin == s.isSpinning
    && (s.isSpinning ==> s.loggedIn)
    && (s.loggedIn ==> TokenKey in s.session && UsernameKey in s.session)
  }

  /** The initial `useState` values, with the tab's store as it was left. */
  function Initial(store: Store): State
  {
    State([], None, "", false, false, 0, false, store)
  }

  /**
   * Mounting the component: the restore effect logs the user back in only when the store
   * holds a truthy token and a truthy username.
   */
  function Mount(store: Store): (s: State)
    ensures Inv(s)
    ensures s.loggedIn <==> Truthy(GetItem(store, TokenKey)) && Truthy(GetItem(store, UsernameKey))
    ensures s.loggedIn ==> GetItem(store, UsernameKey) == Some(s.username) && s.username != ""
    ensures s.loggedIn ==> s == Initial(store).(username := s.username, loggedIn := true)
    ensures !s.loggedIn ==> s == Initial(store)
  {
    var token := GetItem(store, TokenKey);
    var storedUsername := GetItem(store, UsernameKey);
    if Truthy(token) && Truthy(storedUsername) then
      Initial(store).(username := storedUsername.value, loggedIn := true)
    else
      Initial(store)
  }

  /** The username input's `onChange`; the input is only on screen before login. */
  function TypeUsername(s: State, name: string): (t: State)
    requires !s.loggedIn
    ensures t.username == name && t.(username := s.username) == s
  {
    s.(username := name)
  }

  /**
   * `handleLogin` once the login request settles. `sent` is the username the request
   * carried, captured when Login was clicked; the box may have been edited since, and the
   * name on screen is left as it now is.
   */
  function Login(s: State, sent: string, reply: Response<string>): (t: State)
    ensures reply.Failed? ==> t == s
    ensures reply.Ok? ==> && t.loggedIn
                          && GetItem(t.session, TokenKey) == Some(reply.data)
                          && GetItem(t.session, UsernameKey) == Some(sent)
                          && t == s.(session := t.session, loggedIn := true)
    ensures forall k :: k != TokenKey && k != UsernameKey ==> GetItem(t.session, k) == GetItem(s.session, k)
  {
    match reply
    case Ok(token) =>
      s.(session := SetItem(SetItem(s.session, TokenKey, token), UsernameKey, sent),
         loggedIn := true)
    case Failed => s
  }

  /** `fetchLeaderboard` once its request settles: the reply replaces the rows, the rank is left alone. */
  function LeaderboardFetched(s: State, reply: Response<seq<Entry>>): (t: State)
    ensures reply.Failed? ==> t == s
    ensures reply.Ok? ==> t.leaderboard == reply.data && t.userRank == s.userRank
    ensures t.(leaderboard := s.leaderboard) == s
  {
    match reply
    case Ok(board) => s.(leaderboard := board)
    case Failed => s
  }

  /** `fetchUserRank` once its request settles. */
  function UserRankFetched(s: State, reply: Response<int>): (t: State)
    ensures reply.Failed? ==> t == s
    ensures reply.Ok? ==> t.userRank == Some(reply.data) && t.leaderboard == s.leaderboard
    ensures t.(userRank := s.userRank) == s
  {
    match reply
    case Ok(rank) => s.(userRank := Some(rank))
    case Failed => s
  }

  /** `handleSpinClick`: ignored while a spin is under way, otherwise draws and starts the wheel. */
  function SpinClick(s: State, u: Random): (t: State)
    ensures s.isSpinning ==> t == s
    ensures !s.isSpinning ==> t.prizeNumber == DrawIndex(u) && t.mustSpin && t.isSpinning
    ensures && t.leaderboard == s.leaderboard && t.userRank == s.userRank
            && t.username == s.username && t.loggedIn == s.loggedIn && t.session == s.session
  {
    if s.isSpinning then s
    else s.(prizeNumber := DrawIndex(u), mustSpin := true, isSpinning := true)
  }

  /** `handleSpinStop`, first half: both flags are cleared before the request goes out. */
  function SpinStop(s: State): (t: State)
    ensures !t.mustSpin && !t.isSpinning
    ensures t.prizeNumber == s.prizeNumber
    ensures t.(mustSpin := s.mustSpin, isSpinning := s.isSpinning) == s
  {
    s.(mustSpin := false, isSpinning := false)
  }

  /** `handleSpinStop`, second half: the increment request built from the drawn index. */
  function StopRequest(s: State): (req: IncrementRequest)
    requires 0 <= s.prizeNumber < |Options|
    ensures req.increment == Options[s.prizeNumber]
    ensures req.bearer.Some? <==> TokenKey in s.session
    ensures req.bearer.Some? ==> req.bearer.value == s.session[TokenKey]
  {
    IncrementRequest(ValueAt(s.prizeNumber), GetItem(s.session, TokenKey))
  }

  /**
   * The shared update of the socket handler and the increment-score reply: a present
   * leaderboard replaces the rows wholesale and the rank is looked up in it.
   */
  function ApplySnapshot(s: State, board: Option<seq<Entry>>): (t: State)
    ensures board.None? ==> t == s
    ensures board.Some? ==> t.leaderboard == board.value
    ensures board.Some? ==> t.userRank == RankOf(board.value, s.username, s.userRank)
    ensures t.(leaderboard := s.leaderboard, userRank := s.userRank) == s
  {
    match board
    case Some(rows) => s.(leaderboard := rows, userRank := RankOf(rows, s.username, s.userRank))
    case None => s
  }

  /** The `leaderboard-update` socket handler: a push without a leaderboard is ignored. */
  function LeaderboardPushed(s: State, data: Payload): (t: State)
    ensures data.leaderboard.None? ==> t == s
    ensures data.leaderboard.Some? ==> t.leaderboard == data.leaderboard.value
    ensures data.leaderboard.Some? ==> t.userRank == RankOf(data.leaderboard.value, s.username, s.userRank)
    ensures t.(leaderboard := s.leaderboard, userRank := s.userRank) == s
  {
    ApplySnapshot(s, data.leaderboard)
  }

  /** `handleSpinStop` once the increment request settles; a failure is swallowed. */
  function IncrementReplied(s: State, reply: Response<Payload>): (t: State)
    ensures reply.Failed? || reply.data.leaderboard.None? ==> t == s
    ensures reply.Ok? && reply.data.leaderboard.Some? ==> t.leaderboard == reply.data.leaderboard.value
    ensures reply.Ok? && reply.data.leaderboard.Some?
            ==> t.userRank == RankOf(reply.data.leaderboard.value, s.username, s.userRank)
    ensures t.(leaderboard := s.leaderboard, userRank := s.userRank) == s
  {
    match reply
    case Ok(data) => ApplySnapshot(s, data.leaderboard)
    case Failed => s
  }

  /** Everything that can happen to the component, one event at a time. */
  datatype Event =
    | UsernameTyped(name: string)
    | LoginReply(sent: string, login: Response<string>)
    | LeaderboardReply(rows: Response<seq<Entry>>)
    | UserRankReply(rank: Response<int>)
    | SpinClicked(u: Random)
    | SpinStopped
    | IncrementReply(increment: Response<Payload>)
    | LeaderboardPush(data: Payload)
    | PageReload

  /**
   * One event. The username box is on screen only before login, the wheel and its button
   * only after; an event from a control that is not on screen changes nothing.
   */
  function Step(s: State, e: Event): (t: State)
    ensures !e.LoginReply? && !e.PageReload? ==> t.session == s.session
    ensures e.PageReload? ==> t.session == s.session && !t.isSpinning
    ensures !s.loggedIn && (e.SpinClicked? || e.SpinStopped?) ==> t == s
  {
    match e
    case UsernameTyped(name) => if s.loggedIn then s else TypeUsername(s, name)
    case LoginReply(sent, r) => Login(s, sent, r)
    case LeaderboardReply(r) => LeaderboardFetched(s, r)
    case UserRankReply(r) => UserRankFetched(s, r)
    case SpinClicked(u) => if s.loggedIn then SpinClick(s, u) else s
    case SpinStopped => if s.loggedIn then SpinStop(s) else s
    case IncrementReply(r) => IncrementReplied(s, r)
    case LeaderboardPush(d) => LeaderboardPushed(s, d)
    case PageReload => Mount(s.session)
  }

  /** A sequence of events; the session store is written only by login replies. */
  function Run(s: State, events: seq<Event>): (t: State)
    ensures (forall i :: 0 <= i < |events| ==> !events[i].LoginReply?) ==> t.session == s.session
    decreases |events|
  {
    if events == [] then s else Run(Step(s, events[0]), events[1..])
  }

  // ----- The invariant -----

  lemma StepPreservesInv(s: State, e: Event)
    requires Inv(s)
    ensures Inv(Step(s, e))
  {
  }

  lemma {:induction false} RunPreservesInv(s: State, events: seq<Event>)
    requires Inv(s)
    ensures Inv(Run(s, events))
    decreases |events|
  {
    if events != [] {
      StepPreservesInv(s, events[0]);
      RunPreservesInv(Step(s, events[0]), events[1..]);
    }
  }

  /** Every state reachable from any stored session satisfies the invariant. */
  lemma ReachableInv(store: Store, events: seq<Event>)
    ensures Inv(Run(Mount(store), events))
  {
    RunPreservesInv(Mount(store), events);
  }

  // ----- Spin lifecycle -----

  /** Any number of clicks during a spin leave the state exactly as it was: one draw per spin. */
  lemma {:induction false} RepeatedClicksIgnored(s: State, events: seq<Event>)
    requires s.isSpinning
    requires forall i :: 0 <= i < |events| ==> events[i].SpinClicked?
    ensures Run(s, events) == s
    decreases |events|
  {
    if events != [] {
      RepeatedClicksIgnored(Step(s, events[0]), events[1..]);
    }
  }

  /** Until the wheel stops or the page reloads, no event clears the spin or changes the draw. */
  lemma {:induction false} SpinHeldUntilStop(s: State, events: seq<Event>)
    requires s.isSpinning
    requires forall i :: 0 <= i < |events| ==> !events[i].SpinStopped? && !events[i].PageReload?
    ensures Run(s, events).isSpinning && Run(s, events).prizeNumber == s.prizeNumber
    decreases |events|
  {
    if events != [] {
      SpinHeldUntilStop(Step(s, events[0]), events[1..]);
    }
  }

  /**
   * The label sent to the server is the one drawn by the click that started the spin,
   * whatever else happened in between: there is no second draw.
   */
  lemma NoRedraw(s: State, u: Random, events: seq<Event>)
    requires !s.isSpinning
    requires forall i :: 0 <= i < |events| ==> !events[i].SpinStopped? && !events[i].PageReload?
    ensures var t := Run(SpinClick(s, u), events);
      && 0 <= t.prizeNumber < |Options|
      && StopRequest(t).increment == Options[DrawIndex(u)]
      && !SpinStop(t).isSpinning && !SpinStop(t).mustSpin
  {
    SpinHeldUntilStop(SpinClick(s, u), events);
  }

  /** Whenever the wheel is spinning, the increment request it will send carries a token. */
  lemma StopRequestCarriesToken(s: State)
    requires Inv(s) && s.isSpinning
    ensures StopRequest(s).bearer == Some(s.session[TokenKey])
  {
  }

  // ----- Leaderboard snapshots -----

  /** A reply or push without a leaderboard, and any failed request, leave the state unchanged. */
  lemma AbsentOrFailedRepliesChangeNothing(s: State, sent: string)
    ensures LeaderboardPushed(s, Payload(None)) == s
    ensures IncrementReplied(s, Ok(Payload(None))) == s
    ensures IncrementReplied(s, Failed) == s
    ensures LeaderboardFetched(s, Failed) == s
    ensures UserRankFetched(s, Failed) == s
    ensures Login(s, sent, Failed) == s
  {
  }

  /** The increment reply and the socket push apply the same payload in the same way. */
  lemma ReplyAndPushAgree(s: State, data: Payload)
    ensures IncrementReplied(s, Ok(data)) == LeaderboardPushed(s, data)
  {
  }

  /**
   * A fetched leaderboard does not update the rank even when it holds the user's row with
   * a different rank; the same rows arriving as a snapshot do.
   */
  lemma FetchKeepsStaleRank(s: State, rows: seq<Entry>, i: int)
    requires UniqueNames(rows) && 0 <= i < |rows| && rows[i].username == s.username
    requires s.userRank != Some(rows[i].rank)
    ensures LeaderboardFetched(s, Ok(rows)).leaderboard == ApplySnapshot(s, Some(rows)).leaderboard
    ensures LeaderboardFetched(s, Ok(rows)).userRank == s.userRank
    ensures ApplySnapshot(s, Some(rows)).userRank == Some(rows[i].rank)
  {
    RankOfUniqueRow(rows, s.username, i, s.userRank);
  }

  /**
   * Of two snapshots, the later one's rows win. Its rank wins when it holds the user's row;
   * when it does not, the rank the earlier snapshot set survives under the later rows.
   */
  lemma LastWriteWins(s: State, earlier: seq<Entry>, later: seq<Entry>)
    ensures var t := ApplySnapshot(ApplySnapshot(s, Some(earlier)), Some(later));
      && t.leaderboard == later
      && t.userRank == RankOf(later, s.username, RankOf(earlier, s.username, s.userRank))
    ensures (forall i :: 0 <= i < |later| ==> later[i].username != s.username)
            ==> ApplySnapshot(ApplySnapshot(s, Some(earlier)), Some(later)).userRank
                == ApplySnapshot(s, Some(earlier)).userRank
    ensures UniqueNames(later) ==>
      forall i :: 0 <= i < |later| && later[i].username == s.username ==>
        ApplySnapshot(ApplySnapshot(s, Some(earlier)), Some(later)).userRank == Some(later[i].rank)
  {
    forall i | UniqueNames(later) && 0 <= i < |later| && later[i].username == s.username
      ensures ApplySnapshot(ApplySnapshot(s, Some(earlier)), Some(later)).userRank == Some(later[i].rank)
    {
      RankOfUniqueRow(later, s.username, i, ApplySnapshot(s, Some(earlier)).userRank);
    }
  }

  /** A well-formed snapshot that holds the user's row shows a rank of at least 1. */
  lemma WellFormedSnapshotRank(s: State, rows: seq<Entry>, i: int)
    requires WellFormed(rows) && 0 <= i < |rows| && rows[i].username == s.username
    ensures var r := ApplySnapshot(s, Some(rows)).userRank; r.Some? && r.value >= 1
  {
    RankOfUniqueRow(rows, s.username, i, s.userRank);
  }

  /** Delivering the same snapshot twice is the same as delivering it once. */
  lemma SnapshotIdempotent(s: State, board: Option<seq<Entry>>)
    ensures ApplySnapshot(ApplySnapshot(s, board), board) == ApplySnapshot(s, board)
  {
  }

  // ----- Session round trip -----

  /** After a successful login the page can be reloaded and the name sent and the token come back. */
  lemma LoginSurvivesReload(s: State, sent: string, token: string)
    requires sent != "" && token != ""
    ensures var t := Step(Login(s, sent, Ok(token)), PageReload);
      && t.loggedIn && t.username == sent
      && GetItem(t.session, TokenKey) == Some(token)
  {
  }

  /** With an empty username or token stored by login, the reload does not restore the session. */
  lemma EmptyCredentialNotRestored(s: State, sent: string, token: string)
    requires sent == "" || token == ""
    ensures !Step(Login(s, sent, Ok(token)), PageReload).loggedIn
  {
  }

  /**
   * Type "alice", click Login, type "bob" while the request is in flight, then the reply
   * arrives: "bob" stays on screen (and is the name snapshots look up), "alice" is stored,
   * and a reload brings back "alice".
   */
  lemma EditDuringLogin(store: Store)
    requires !Mount(store).loggedIn
    ensures var s := Run(Mount(store), [UsernameTyped("alice"), UsernameTyped("bob"),
                                        LoginReply("alice", Ok("T1"))]);
      && s.loggedIn && s.username == "bob"
      && GetItem(s.session, UsernameKey) == Some("alice")
      && Step(s, PageReload).username == "alice"
  {
  }

  // ----- A whole session -----

  /**
   * Log in as "alice", receive the first leaderboard, spin a draw that lands on segment 5
   * ("21"), and receive the server's updated snapshot: the request carried "21" and the
   * token, and the shown rank is alice's rank 1.
   */
  lemma AliceSession(store: Store)
    requires !Mount(store).loggedIn
    ensures var s0 := Step(Mount(store), UsernameTyped("alice"));
      var s1 := Run(s0, [LoginReply("alice", Ok("T1")), LeaderboardReply(Ok([Entry("alice", 0, 1)])),
                         SpinClicked(0.34)]);
      var s2 := Step(s1, SpinStopped);
      var s3 := Step(s2, IncrementReply(Ok(Payload(Some([Entry("alice", 21, 1)])))));
      && StopRequest(s1) == IncrementRequest("21", Some("T1"))
      && s3.leaderboard == [Entry("alice", 21, 1)]
      && s3.userRank == Some(1)
      && !s3.isSpinning && s3.loggedIn
  {
  }
}
