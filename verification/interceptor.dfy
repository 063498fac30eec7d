/** The response interceptor of the authenticated client. A success passes through; an
    error is examined by status. A 401 away from the login page is answered by refreshing
    the access token and re-issuing the request through the same client, so a request the
    server keeps refusing is refreshed and re-issued again and again; with no refresh token,
    or when the refresh fails, the app navigates to the login page and the error is passed on.
    The pathname and the login route are those seen when the interceptor was installed. */
module Interceptor {
  import opened Base
  import opened Server
  import opened TokenStore

  /** What the server does with one attempt of a request: answer it, answer it with an
      error status, or never answer (a network error, which has no `response`). */
  datatype Answer = Answered | ErrorStatus(status: int) | NoResponse

  /** The handler's decision for a failed attempt. */
  datatype Decision =
    | Swallow               // return nothing: the request resolves with `undefined`
    | Refresh(token: string)  // call the refresh endpoint with this refresh token
    | ToLogin               // navigate to the login page, then reject the original error
    | RejectOriginal        // reject the original error, nothing else
    | CrashOnMissingResponse  // `error.response.status` throws: reject with a `TypeError`

  /** The first decision, made before any refresh is attempted. */
  function Decide(answer: Answer, pathname: string, loginRoute: string, store: Store): (d: Decision)
    requires !answer.Answered?
    ensures answer.NoResponse? <==> d.CrashOnMissingResponse?
    ensures answer.ErrorStatus? && answer.status != 401 <==> d.RejectOriginal?
    ensures d.Swallow? <==> answer == ErrorStatus(401) && Includes(pathname, loginRoute)
    ensures d.Refresh? <==> answer == ErrorStatus(401) && !Includes(pathname, loginRoute) && Truthy(store.refreshToken)
    ensures d.Refresh? ==> d.token == store.refreshToken.value
    ensures d.ToLogin? <==> answer == ErrorStatus(401) && !Includes(pathname, loginRoute) && !Truthy(store.refreshToken)
  {
    match answer
    case NoResponse => CrashOnMissingResponse
    case ErrorStatus(status) =>
      if status != 401 then RejectOriginal
      else if Includes(pathname, loginRoute) then Swallow
      else if Truthy(store.refreshToken) then Refresh(store.refreshToken.value)
      else ToLogin
  }

  /** How the request finally settles, as its caller sees it. */
  datatype Final = Resolved | ResolvedEmpty | RejectedWith(status: int) | TypeErrorThrown

  /** Everything one request went through: how it settled, the refresh tokens sent to the
      refresh endpoint, the headers the re-issued attempts carried, the `from` of every
      navigation to the login page, and the credentials afterwards. */
  datatype Delivery = Delivery(final: Final, refreshCalls: seq<string>, retryHeaders: seq<string>,
                               navigations: seq<string>, store: Store)

  /** One request through the interceptor. `answers[k]` is the server's answer to the `k`-th
      attempt and `refreshes[k]` to the `k`-th refresh call; a script that runs out means no
      answer. A re-issued attempt goes through this same handler, and its outcome is the
      outcome of the request: a rejection of the re-issued attempt is not caught by the
      refresh's `catch`. */
  function Deliver(answers: seq<Answer>, refreshes: seq<Reply<string>>, store: Store, pathname: string,
                   loginRoute: string): (d: Delivery)
    ensures |d.retryHeaders| <= |d.refreshCalls|
    ensures |d.navigations| <= 1
    ensures d.store.refreshToken == store.refreshToken
    ensures InSync(store) ==> InSync(d.store)
    ensures forall i :: 0 <= i < |d.refreshCalls| ==> Some(d.refreshCalls[i]) == store.refreshToken
    ensures forall i :: 0 <= i < |d.navigations| ==> d.navigations[i] == pathname
    ensures d.final.Resolved? || d.final.ResolvedEmpty? ==> d.navigations == []
    decreases |answers|
  {
    var answer := if answers == [] then NoResponse else answers[0];
    if answer.Answered? then Delivery(Resolved, [], [], [], store)
    else
      match Decide(answer, pathname, loginRoute, store)
      case CrashOnMissingResponse => Delivery(TypeErrorThrown, [], [], [], store)
      case RejectOriginal => Delivery(RejectedWith(answer.status), [], [], [], store)
      case Swallow => Delivery(ResolvedEmpty, [], [], [], store)
      case ToLogin => Delivery(RejectedWith(401), [], [], [pathname], store)
      case Refresh(token) =>
        match ReplyAt(refreshes, 0)
        case Failed(_) => Delivery(RejectedWith(401), [token], [], [pathname], store)
        case Ok(access) =>
          var refreshed := UpdateToken(store, Ok(access));
          var rest := Deliver(answers[1..], if refreshes == [] then [] else refreshes[1..], refreshed, pathname, loginRoute);
          Delivery(rest.final, [token] + rest.refreshCalls, [Bearer(access)] + rest.retryHeaders, rest.navigations, rest.store)
  }

  /** A success is handed back untouched: no refresh, no navigation, no change. */
  lemma SuccessPassesThrough(answers: seq<Answer>, refreshes: seq<Reply<string>>, store: Store, pathname: string,
                             loginRoute: string)
    requires answers != [] && answers[0] == Answered
    ensures Deliver(answers, refreshes, store, pathname, loginRoute) == Delivery(Resolved, [], [], [], store)
  {
  }

  /** `n` refusals followed by a success, with every refresh answered: the request is
      refreshed and re-issued `n` times, each time with the stored refresh token, each
      re-issued attempt carries the token the refresh just returned, and the last of those
      tokens ends up stored. Nothing bounds `n`. */
  lemma {:induction false} RepeatedRefusals(n: nat, refreshes: seq<Reply<string>>, store: Store, pathname: string,
                                            loginRoute: string)
    requires !Includes(pathname, loginRoute) && Truthy(store.refreshToken)
    requires forall i :: 0 <= i < n ==> ReplyAt(refreshes, i).Ok?
    ensures var d := Deliver(Refusals(n) + [Answered], refreshes, store, pathname, loginRoute);
            && d.final == Resolved
            && |d.refreshCalls| == n && |d.retryHeaders| == n && d.navigations == []
            && (forall i :: 0 <= i < n ==> d.retryHeaders[i] == Bearer(ReplyAt(refreshes, i).value))
            && d.store.accessToken == (if n == 0 then store.accessToken else Some(ReplyAt(refreshes, n - 1).value))
    decreases n
  {
    var answers := Refusals(n) + [Answered];
    if n > 0 {
      assert answers[0] == ErrorStatus(401);
      assert answers[1..] == Refusals(n - 1) + [Answered];
      var later := if refreshes == [] then [] else refreshes[1..];
      var access := ReplyAt(refreshes, 0).value;
      var refreshed := UpdateToken(store, Ok(access));
      assert forall i :: 0 <= i < n - 1 ==> ReplyAt(later, i) == ReplyAt(refreshes, i + 1);
      RepeatedRefusals(n - 1, later, refreshed, pathname, loginRoute);
      var rest := Deliver(Refusals(n - 1) + [Answered], later, refreshed, pathname, loginRoute);
      var d := Deliver(answers, refreshes, store, pathname, loginRoute);
      assert d.retryHeaders == [Bearer(access)] + rest.retryHeaders;
      assert forall i :: 1 <= i < n ==> d.retryHeaders[i] == rest.retryHeaders[i - 1];
    }
  }

  /** A first answer the handler does not refresh settles the request at once: on the login
      page a 401 resolves with nothing; another status is rejected as it is; a 401 with no
      refresh token navigates once to the login page with the current pathname and rejects;
      a missing response throws. None of these refreshes, retries or touches the credentials. */
  lemma FirstAnswerSettles(answers: seq<Answer>, refreshes: seq<Reply<string>>, store: Store, pathname: string,
                           loginRoute: string)
    requires answers != [] && !answers[0].Answered?
    ensures var d := Decide(answers[0], pathname, loginRoute, store);
            var r := Deliver(answers, refreshes, store, pathname, loginRoute);
            && (d.Swallow? ==> r == Delivery(ResolvedEmpty, [], [], [], store))
            && (d.RejectOriginal? ==> r == Delivery(RejectedWith(answers[0].status), [], [], [], store))
            && (d.ToLogin? ==> r == Delivery(RejectedWith(401), [], [], [pathname], store))
            && (d.CrashOnMissingResponse? ==> r == Delivery(TypeErrorThrown, [], [], [], store))
  {
  }

  /** `n` answers of 401. */
  function Refusals(n: nat): (r: seq<Answer>)
    ensures |r| == n && forall i :: 0 <= i < n ==> r[i] == ErrorStatus(401)
  {
    seq(n, _ => ErrorStatus(401))
  }

  /** A failed refresh ends the request: one navigation to the login page with the current
      pathname, the original 401 passed on, and the credentials untouched. */
  lemma FailedRefreshGoesToLogin(answers: seq<Answer>, refreshes: seq<Reply<string>>, store: Store, pathname: string,
                                 loginRoute: string)
    requires answers != [] && answers[0] == ErrorStatus(401)
    requires !Includes(pathname, loginRoute) && Truthy(store.refreshToken)
    requires ReplyAt(refreshes, 0).Failed?
    ensures Deliver(answers, refreshes, store, pathname, loginRoute)
         == Delivery(RejectedWith(401), [store.refreshToken.value], [], [pathname], store)
  {
  }
}
