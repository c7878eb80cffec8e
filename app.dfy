/**
 * The `App` component itself: its `useState` fields and the tab's session store as
 * mutable fields, and its handlers as methods that update them step by step. Each
 * method is proved to perform its `AppState` transition and to keep `AppState.Inv`.
 */
module AppComponent {

  import opened Wrappers
  import opened Wheel
  import opened Leaderboard
  import opened SessionStorage
  import opened AppState

  class App {
    var leaderboard: seq<Entry>
    var userRank: Option<int>
    var username: string
    var loggedIn: bool
    var mustSpin: bool
    var prizeNumber: int
    var isSpinning: bool
    var session: Store

    /** The fields as one `AppState.State` value. */
    function AsState(): State
      reads this
    {
      State(leaderboard, userRank, username, loggedIn, mustSpin, prizeNumber, isSpinning, session)
    }

    predicate Valid()
      reads this
    {
      Inv(AsState())
    }

    /** Mounting: the initial state, then the restore effect over the tab's store. */
    constructor (stored: Store)
      ensures Valid() && AsState() == Mount(stored)
    {
      leaderboard := [];
      userRank := None;
      username := "";
      loggedIn := false;
      mustSpin := false;
      prizeNumber := 0;
      isSpinning := false;
      session := stored;
      new;
      var token := GetItem(session, TokenKey);
      var storedUsername := GetItem(session, UsernameKey);
      if Truthy(token) && Truthy(storedUsername) {
        username := storedUsername.value;
        loggedIn := true;
      }
    }

    /** The username input's `onChange`, rendered only on the login view. */
    method TypeUsername(name: string)
      requires Valid() && !loggedIn
      modifies this
      ensures Valid() && AsState() == AppState.TypeUsername(old(AsState()), name)
    {
      username := name;
    }

    /**
     * `handleLogin` once its request settles. `sent` is the username captured when Login
     * was clicked; the box may have been edited since.
     */
    method HandleLogin(sent: string, reply: Response<string>)
      requires Valid()
      modifies this
      ensures Valid() && AsState() == Login(old(AsState()), sent, reply)
    {
      if reply.Ok? {
        var token := reply.data;
        session := SetItem(session, TokenKey, token);
        session := SetItem(session, UsernameKey, sent);
        loggedIn := true;
      }
    }

    method FetchLeaderboardReply(reply: Response<seq<Entry>>)
      requires Valid()
      modifies this
      ensures Valid() && AsState() == LeaderboardFetched(old(AsState()), reply)
    {
      if reply.Ok? {
        leaderboard := reply.data;
      }
    }

    method FetchUserRankReply(reply: Response<int>)
      requires Valid()
      modifies this
      ensures Valid() && AsState() == UserRankFetched(old(AsState()), reply)
    {
      if reply.Ok? {
        userRank := Some(reply.data);
      }
    }

    /** The Spin button, rendered only after login. */
    method HandleSpinClick(u: Random)
      requires Valid() && loggedIn
      modifies this
      ensures Valid() && AsState() == SpinClick(old(AsState()), u)
    {
      if !isSpinning {
        var newPrizeNumber := DrawIndex(u);
        prizeNumber := newPrizeNumber;
        mustSpin := true;
        isSpinning := true;
      }
    }

    /**
     * The wheel's stop callback (the wheel is rendered only after login): clears both flags,
     * then builds the increment request from the drawn segment.
     */
    method HandleSpinStop() returns (request: IncrementRequest)
      requires Valid() && loggedIn
      modifies this
      ensures Valid() && AsState() == SpinStop(old(AsState()))
      ensures request == StopRequest(old(AsState()))
      ensures request.increment == Options[old(prizeNumber)]
    {
      mustSpin := false;
      isSpinning := false;
      var wheelValue := Options[prizeNumber];
      var token := GetItem(session, TokenKey);
      request := IncrementRequest(wheelValue, token);
    }

    method IncrementScoreReply(reply: Response<Payload>)
      requires Valid()
      modifies this
      ensures Valid() && AsState() == IncrementReplied(old(AsState()), reply)
    {
      if reply.Ok? {
        ApplyLeaderboard(reply.data.leaderboard);
      }
    }

    /** The `leaderboard-update` socket handler. */
    method OnLeaderboardUpdate(data: Payload)
      requires Valid()
      modifies this
      ensures Valid() && AsState() == LeaderboardPushed(old(AsState()), data)
    {
      ApplyLeaderboard(data.leaderboard);
    }

    /** The body both snapshot handlers share: replace the rows, then look up the user's rank. */
    method ApplyLeaderboard(board: Option<seq<Entry>>)
      requires Valid()
      modifies this
      ensures Valid() && AsState() == ApplySnapshot(old(AsState()), board)
    {
      if board.Some? {
        var rows := board.value;
        leaderboard := rows;
        var userEntry := FindEntry(rows, username);
        if userEntry.Some? {
          userRank := Some(rows[userEntry.value].rank);
        }
      }
    }
  }
}
