/** The join-by-invitation page (src/pages/JoinPage.tsx): the `code` query parameter,
    the redirect to the login page for a visitor who is not signed in, the confirmation
    dialog, and the enrolment call that lands on the course page. */
module Join {
  import opened Common
  import Layout

  /** Whether the query parameter is truthy: present and not empty. */
  predicate HasCode(code: Option<string>)
  {
    code.Some? && code.value != ""
  }

  const LoginRequiredMessage := "수강 신청을 위해 로그인이 필요합니다."
  const JoinedMessage := "수강 신청이 완료되었습니다!"
  const JoinFailedText := "수강 신청에 실패했습니다."
  const JoinPathPrefix := "/join?code="
  const CoursePathPrefix := "/courses/"

  /** The router state passed along with a navigation. */
  datatype RouteState =
    | NoState
    | LoginRedirect(redirectTo: string, message: string)
    | Notice(message: string)

  /** A `navigate(path, { replace: true, state })` call; every navigation of this page
      replaces the history entry. */
  datatype Navigation = Navigation(path: string, state: RouteState)

  const GoHome := Navigation("/", NoState)

  /** The address the login page is asked to return to. */
  function JoinPath(code: string): (p: string)
    ensures |p| == |JoinPathPrefix| + |code| && p[..|JoinPathPrefix|] == JoinPathPrefix
  {
    JoinPathPrefix + code
  }

  /** Whether a character is a hexadecimal digit. */
  predicate IsHexDigit(c: char)
  {
    '0' <= c <= '9' || 'a' <= c <= 'f' || 'A' <= c <= 'F'
  }

  function HexValue(c: char): (v: nat)
    requires IsHexDigit(c)
    ensures v < 16
  {
    if '0' <= c <= '9' then c as nat - '0' as nat
    else if 'a' <= c <= 'f' then c as nat - 'a' as nat + 10
    else c as nat - 'A' as nat + 10
  }

  /** The value of the first query parameter: it ends at the next `&`, or at the `#`
      where the fragment begins. */
  function ParamValue(s: string): (v: string)
    ensures v <= s && '&' !in v && '#' !in v
    ensures |v| < |s| ==> s[|v|] == '&' || s[|v|] == '#'
    ensures '&' !in s && '#' !in s ==> v == s
  {
    if s == [] || s[0] == '&' || s[0] == '#' then []
    else [s[0]] + ParamValue(s[1..])
  }

  /** Form-urlencoded decoding as `URLSearchParams` does it: `+` is a space, `%` with
      two hexadecimal digits the character of that code, and any other `%` stays. */
  function QueryDecode(s: string): (d: string)
    ensures |d| <= |s|
    ensures '+' !in s && '%' !in s ==> d == s
  {
    if s == [] then []
    else if s[0] == '+' then [' '] + QueryDecode(s[1..])
    else if s[0] == '%' && |s| >= 3 && IsHexDigit(s[1]) && IsHexDigit(s[2]) then
      [(HexValue(s[1]) * 16 + HexValue(s[2])) as char] + QueryDecode(s[3..])
    else [s[0]] + QueryDecode(s[1..])
  }

  /** A code the page can put into an address unencoded and read back unchanged. */
  predicate PlainCode(code: string)
  {
    '&' !in code && '#' !in code && '+' !in code && '%' !in code
  }

  /** The code carried by a join address, read back the way the page reads it:
      `searchParams.get('code')`. */
  function CodeOfJoinPath(path: string): (code: Option<string>)
    ensures code.Some? <==> |path| >= |JoinPathPrefix| && path[..|JoinPathPrefix|] == JoinPathPrefix
    ensures code.Some? && PlainCode(path[|JoinPathPrefix|..]) ==> path == JoinPathPrefix + code.value
    ensures code.Some? ==> |code.value| <= |path| - |JoinPathPrefix|
  {
    if |path| >= |JoinPathPrefix| && path[..|JoinPathPrefix|] == JoinPathPrefix
    then Some(QueryDecode(ParamValue(path[|JoinPathPrefix|..])))
    else None
  }

  /** A plain code survives the trip through a join address. */
  lemma PlainCodeRoundTrip(code: string)
    requires PlainCode(code)
    ensures CodeOfJoinPath(JoinPath(code)) == Some(code)
  {
    assert JoinPath(code)[|JoinPathPrefix|..] == code;
  }

  lemma {:induction false} ParamValueStops(a: string, rest: string)
    requires '&' !in a && '#' !in a && rest != [] && (rest[0] == '&' || rest[0] == '#')
    ensures ParamValue(a + rest) == a
  {
    if a != [] {
      assert (a + rest)[1..] == a[1..] + rest;
      ParamValueStops(a[1..], rest);
      assert [a[0]] + a[1..] == a;
    } else {
      assert a + rest == rest;
    }
  }

  lemma {:induction false} QueryDecodePlainPrefix(a: string, rest: string)
    requires '+' !in a && '%' !in a
    ensures QueryDecode(a + rest) == a + QueryDecode(rest)
  {
    if a != [] {
      var s := a + rest;
      assert s[0] == a[0] && s[0] != '+' && s[0] != '%';
      assert s[1..] == a[1..] + rest;
      assert QueryDecode(s) == [a[0]] + QueryDecode(s[1..]);
      QueryDecodePlainPrefix(a[1..], rest);
      assert [a[0]] + a[1..] == a;
    } else {
      assert a + rest == rest;
    }
  }

  /** An `&` in the code ends it: the page reads back only what comes before. */
  lemma CodeCutAtAmpersand(a: string, b: string)
    requires PlainCode(a)
    ensures CodeOfJoinPath(JoinPath(a + "&" + b)) == Some(a)
  {
    assert JoinPath(a + "&" + b)[|JoinPathPrefix|..] == a + ("&" + b);
    ParamValueStops(a, "&" + b);
  }

  /** A `+` in the code comes back as a space. */
  lemma PlusReadsAsSpace(a: string, b: string)
    requires PlainCode(a) && PlainCode(b)
    ensures CodeOfJoinPath(JoinPath(a + "+" + b)) == Some(a + " " + b)
  {
    var rest := a + "+" + b;
    assert JoinPath(rest)[|JoinPathPrefix|..] == rest;
    assert '&' !in rest && '#' !in rest;
    assert ParamValue(rest) == rest;
    assert rest == a + ("+" + b);
    QueryDecodePlainPrefix(a, "+" + b);
    var t := "+" + b;
    assert t[0] == '+' && t[1..] == b;
    assert QueryDecode(t) == [' '] + QueryDecode(b);
    assert QueryDecode(b) == b;
    assert a + " " + b == a + ([' '] + b);
  }

  /** The navigation that sends a visitor who is not signed in to the login page. */
  function LoginRedirectFor(code: string): (n: Navigation)
    ensures n.path == "/login" && n.state.LoginRedirect? && n.state.message == LoginRequiredMessage
    ensures CodeOfJoinPath(n.state.redirectTo).Some?
  {
    Navigation("/login", LoginRedirect(JoinPath(code), LoginRequiredMessage))
  }

  /** Where the login page goes after a successful login, as written: home, whatever
      the router state; it reads only the state's message and e-mail. */
  function AfterLoginAsWritten(state: RouteState): (path: string)
    ensures CodeOfJoinPath(path) == None
  {
    "/"
  }

  /** As written, a visitor sent to log in by the join page loses the invitation code:
      after logging in they are home, not back on the join page. */
  lemma JoinRedirectLosesCode(code: string)
    requires code != ""
    ensures var landing := AfterLoginAsWritten(LoginRedirectFor(code).state);
      landing == "/" && CodeOfJoinPath(landing) == None
  {
  }

  /** Where the login page goes after a successful login, as intended: back to the
      address it was asked to return to, home otherwise. */
  function AfterLogin(state: RouteState): (path: string)
    ensures state.LoginRedirect? ==> path == state.redirectTo
    ensures !state.LoginRedirect? ==> path == "/"
  {
    if state.LoginRedirect? then state.redirectTo else "/"
  }

  /** With the intended login page, the redirect brings the visitor back to the join
      page with the same code. */
  lemma {:induction false} LoginReturnsToSameCode(code: string)
    requires code != "" && PlainCode(code)
    ensures CodeOfJoinPath(AfterLogin(LoginRedirectFor(code).state)) == Some(code)
  {
    assert AfterLogin(LoginRedirectFor(code).state) == JoinPath(code);
    PlainCodeRoundTrip(code);
  }

  /** The course page reached after joining. */
  function CoursePath(courseId: nat): (p: string)
    ensures |p| > |CoursePathPrefix| && p[..|CoursePathPrefix|] == CoursePathPrefix
  {
    CoursePathPrefix + NatToString(courseId)
  }

  /** The course page's route parameter, as the layout reads it, selects the joined course. */
  lemma JoinLandsOnCourse(courseId: nat)
    ensures CoursePath(courseId)[|CoursePathPrefix|..] == NatToString(courseId)
    ensures Layout.SelectedCourseId(Some(CoursePath(courseId)[|CoursePathPrefix|..])) == Some(courseId)
  {
    assert CoursePath(courseId)[|CoursePathPrefix|..] == NatToString(courseId);
    Layout.RouteRoundTrip(courseId);
  }

  /** What the page renders. */
  datatype View =
    | Loader
    | Blank
    /** The card; the dialog, when shown, shows the error message when there is one. */
    | Card(dialog: bool, errorShown: Option<string>)

  class JoinPage {
    var isJoining: bool
    var showConfirmDialog: bool
    var error: Option<string>

    constructor ()
      ensures !isJoining && !showConfirmDialog && error == None
    {
      isJoining := false;
      showConfirmDialog := false;
      error := None;
    }

    /** The access effect: no code goes home whatever the sign-in state; while sign-in
        is being checked nothing happens; a visitor who is not signed in is sent to the
        login page with the way back; a signed-in visitor sees the dialog. */
    method AccessEffect(code: Option<string>, authLoading: bool, authenticated: bool)
      returns (nav: Option<Navigation>)
      modifies this`showConfirmDialog
      ensures !HasCode(code) ==> nav == Some(GoHome) && showConfirmDialog == old(showConfirmDialog)
      ensures HasCode(code) && authLoading ==> nav == None && showConfirmDialog == old(showConfirmDialog)
      ensures HasCode(code) && !authLoading && !authenticated ==>
        nav == Some(LoginRedirectFor(code.value))
        && showConfirmDialog == old(showConfirmDialog)
      ensures HasCode(code) && !authLoading && authenticated ==> nav == None && showConfirmDialog
    {
      if !HasCode(code) {
        return Some(GoHome);
      }
      if authLoading {
        return None;
      }
      if !authenticated {
        return Some(LoginRedirectFor(code.value));
      }
      showConfirmDialog := true;
      nav := None;
    }

    /** handleConfirm: `reply` is what `joinCourse(code)` settles to, the course id of
        the joined course. A failure shows the dialog again with the message. */
    method Confirm(code: Option<string>, reply: Remote<nat>) returns (nav: Option<Navigation>)
      modifies this
      ensures !HasCode(code) ==>
        nav == None && isJoining == old(isJoining) && showConfirmDialog == old(showConfirmDialog) && error == old(error)
      ensures HasCode(code) ==> !isJoining
      ensures HasCode(code) && reply.Ok? ==>
        nav == Some(Navigation(CoursePath(reply.value), Notice(JoinedMessage)))
        && error == None && !showConfirmDialog
      ensures HasCode(code) && reply.Threw? ==>
        nav == None && error == Some(MessageOr(reply.error, JoinFailedText)) && showConfirmDialog
    {
      if !HasCode(code) {
        return None;
      }
      isJoining := true;
      error := None;
      showConfirmDialog := false;
      match reply {
        case Ok(courseId) =>
          nav := Some(Navigation(CoursePath(courseId), Notice(JoinedMessage)));
        case Threw(e) =>
          error := Some(MessageOr(e, JoinFailedText));
          showConfirmDialog := true;
          nav := None;
      }
      isJoining := false;
    }

    /** handleCancel */
    method Cancel() returns (nav: Navigation)
      ensures nav == GoHome && nav.state == NoState
    {
      nav := GoHome;
    }

    /** The render: a loader while sign-in is checked or the join is in flight, nothing
        while a redirect is pending, otherwise the card. An empty error is not shown. */
    function Render(code: Option<string>, authLoading: bool, authenticated: bool): (v: View)
      reads this
      ensures v == Loader <==> authLoading || isJoining
      ensures v == Blank <==> !authLoading && !isJoining && (!HasCode(code) || !authenticated)
      ensures v.Card? ==>
        v.dialog == showConfirmDialog
        && (v.errorShown.Some? <==> showConfirmDialog && error.Some? && error.value != "")
        && (v.errorShown.Some? ==> v.errorShown == error)
    {
      if authLoading || isJoining then Loader
      else if !HasCode(code) || !authenticated then Blank
      else Card(showConfirmDialog, if showConfirmDialog && error.Some? && error.value != "" then error else None)
    }
  }

  /** What `courseApi.joinCourse(code)` settles to as written: `courseApi` has no
      `joinCourse`, so the call throws a `TypeError`, with the engine's message, before
      any request is made. */
  function JoinCourseAsWritten(engineMessage: string): (r: Remote<nat>)
    ensures r.Threw? && MessageOr(r.error, JoinFailedText) == engineMessage
  {
    Threw(ErrorObject(engineMessage))
  }

  /** As written, every confirmation fails: the visitor stays on the dialog, which shows
      the engine's message, and never reaches a course. */
  method ConfirmAsWrittenNeverJoins(code: string, engineMessage: string) returns (nav: Option<Navigation>, v: View)
    requires code != "" && engineMessage != ""
    ensures nav == None && v == Card(true, Some(engineMessage))
  {
    var page := new JoinPage();
    var _ := page.AccessEffect(Some(code), false, true);
    nav := page.Confirm(Some(code), JoinCourseAsWritten(engineMessage));
    v := page.Render(Some(code), false, true);
  }

  /** A failed join by a signed-in visitor ends on the dialog showing the failure. */
  method FailedJoinShowsError(code: string, e: Thrown) returns (v: View)
    requires code != "" && MessageOr(e, JoinFailedText) != ""
    ensures v == Card(true, Some(MessageOr(e, JoinFailedText)))
  {
    var page := new JoinPage();
    var _ := page.AccessEffect(Some(code), false, true);
    var _ := page.Confirm(Some(code), Threw(e));
    v := page.Render(Some(code), false, true);
  }
}
