/** The dashboard page (app/dashboard/page.tsx): what it derives for display
    from the hook's `user`, and its sign-out button. The page is exported
    wrapped in `withAuth` and takes no props. */
module Dashboard {
  import opened Values
  import UseAuth
  import AuthContext
  import Routes

  type User = UseAuth.User

  /** `toUpperCase` of one character, for ASCII only. */
  function ToUpperAscii(c: char): (u: char)
    ensures !('a' <= u <= 'z')
    ensures 'a' <= c <= 'z' ==> 'A' <= u <= 'Z' && u as int - 'A' as int == c as int - 'a' as int
    ensures !('a' <= c <= 'z') ==> u == c
  {
    if 'a' <= c <= 'z' then (c as int - 32) as char else c
  }

  predicate HasUsername(user: Option<User>)
  {
    user.Some? && user.value.username != ""
  }

  /** `user?.username?.charAt(0).toUpperCase() || 'U'` (page.tsx:33). */
  function AvatarInitial(user: Option<User>): (r: string)
    ensures |r| == 1
    ensures HasUsername(user) ==> r == [ToUpperAscii(user.value.username[0])]
    ensures !HasUsername(user) ==> r == "U"
  {
    var initial := if HasUsername(user) then [ToUpperAscii(user.value.username[0])] else "";
    FirstNonEmptyPair(initial, "U");
    FirstNonEmpty([initial, "U"])
  }

  /** `user?.username || user?.email || 'User'` (page.tsx:37). */
  function HeaderName(user: Option<User>): (r: string)
    ensures r != ""
    ensures HasUsername(user) ==> r == user.value.username
    ensures !HasUsername(user) && user.Some? && user.value.email != "" ==> r == user.value.email
    ensures !HasUsername(user) && (user.None? || user.value.email == "") ==> r == "User"
  {
    var username := if user.Some? then user.value.username else "";
    var email := if user.Some? then user.value.email else "";
    assert [username, email, "User"][1..] == [email, "User"];
    FirstNonEmptyPair(email, "User");
    FirstNonEmpty([username, email, "User"])
  }

  /** `user?.email || 'Not available'` (page.tsx:178). */
  function EmailRow(user: Option<User>): (r: string)
    ensures user.Some? && user.value.email != "" ==> r == user.value.email
    ensures user.None? || user.value.email == "" ==> r == "Not available"
  {
    var email := if user.Some? then user.value.email else "";
    FirstNonEmptyPair(email, "Not available");
    FirstNonEmpty([email, "Not available"])
  }

  /** `user?.username || 'Not set'` (page.tsx:182). */
  function UsernameRow(user: Option<User>): (r: string)
    ensures HasUsername(user) ==> r == user.value.username
    ensures !HasUsername(user) ==> r == "Not set"
  {
    var username := if user.Some? then user.value.username else "";
    FirstNonEmptyPair(username, "Not set");
    FirstNonEmpty([username, "Not set"])
  }

  /** `user?.emailVerified ? 'Yes' : 'No'` (page.tsx:186-188). */
  function VerifiedRow(user: Option<User>): (r: string)
    ensures r == "Yes" <==> user.Some? && user.value.emailVerified
    ensures r == "Yes" || r == "No"
  {
    if user.Some? && user.value.emailVerified then "Yes" else "No"
  }

  function Min(a: int, b: int): int
  {
    if a < b then a else b
  }

  /** `s.substring(0, end)` for `0 <= end`: JavaScript clamps `end` to the
      length. */
  function SubstringFrom0(s: string, end: nat): (r: string)
    ensures r <= s && |r| == Min(end, |s|)
  {
    if end < |s| then s[..end] else s
  }

  /** `user?.userId ? `${user.userId.substring(0, 8)}...` : 'Not available'`
      (page.tsx:193): at most eight characters of the id, then an ellipsis. */
  function UserIdRow(user: Option<User>): (r: string)
    ensures user.None? || user.value.userId == "" ==> r == "Not available"
    ensures user.Some? && user.value.userId != "" ==>
      && |r| == Min(8, |user.value.userId|) + 3
      && r[..|r| - 3] <= user.value.userId
      && r[|r| - 3..] == "..."
  {
    if user.Some? && user.value.userId != "" then
      var shown := SubstringFrom0(user.value.userId, 8);
      var r := shown + "...";
      assert r[..|r| - 3] == shown && r[|r| - 3..] == "...";
      r
    else "Not available"
  }

  /** The page's `handleSignOut` (page.tsx:10-16): the hook's error is caught
      and not passed on. When sign-out fails the hook stays loading, so the
      guard around this page goes back to the spinner. */
  method HandleSignOut(auth: UseAuth.AuthHook, outcome: Outcome<()>)
    requires auth.Valid()
    modifies auth
    ensures auth.Valid()
    ensures auth.state == UseAuth.AfterSignOut(old(auth.state), UseAuth.FailureOf(outcome, UseAuth.SignOutFailed))
    ensures outcome.Err? ==> AuthContext.Guard(auth.state.isLoading, auth.state.isAuthenticated, true, ()) == AuthContext.Spinner
    ensures outcome.Ok? ==> AuthContext.Guard(auth.state.isLoading, auth.state.isAuthenticated, true, ()) ==
                            AuthContext.Blank(Some(Routes.Login))
  {
    var _ := auth.SignOut(outcome);
  }
}
