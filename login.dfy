/** The credential checks and submit handlers of src/components/Login.js.

    Both forms check the e-mail address first and the password second, and send
    a request only when both pass; how the request settles is a parameter. */
module Login {
  import opened Wrappers

  // ---------------------------------------------------------------------------
  // validateEmail

  /** The class `\s` of a JavaScript regular expression: the ECMAScript white
      space and line terminator characters. */
  predicate IsSpace(c: char) {
    || c == '\t' || c == '\n' || c == '\U{000B}' || c == '\U{000C}' || c == '\r'
    || c == ' ' || c == '\U{00A0}' || c == '\U{1680}' || ('\U{2000}' <= c <= '\U{200A}')
    || c == '\U{2028}' || c == '\U{2029}' || c == '\U{202F}' || c == '\U{205F}'
    || c == '\U{3000}' || c == '\U{FEFF}'
  }

  /** The class `[^\s@]`. */
  predicate IsAddressChar(c: char) {
    !IsSpace(c) && c != '@'
  }

  predicate AllAddressChars(s: string) {
    forall i :: 0 <= i < |s| ==> IsAddressChar(s[i])
  }

  /** A string matched by one `[^\s@]+`. */
  predicate IsRun(s: string) {
    |s| > 0 && AllAddressChars(s)
  }

  /** `e` is `local + "@" + d1 + "." + d2` with each of the three parts a run. */
  ghost predicate IsEmailSplit(e: string, local: string, d1: string, d2: string) {
    IsRun(local) && IsRun(d1) && IsRun(d2) && e == local + "@" + d1 + "." + d2
  }

  /** The language of the pattern `^[^\s@]+@[^\s@]+\.[^\s@]+$`. */
  ghost predicate MatchesEmailPattern(e: string) {
    exists local, d1, d2 :: IsEmailSplit(e, local, d1, d2)
  }

  /** The position of the first `c` in `s`, or `|s|` when there is none. */
  function IndexOf(s: string, c: char): (k: nat)
    ensures k <= |s|
    ensures k < |s| ==> s[k] == c
    ensures forall i :: 0 <= i < k ==> s[i] != c
  {
    if s == [] then 0
    else if s[0] == c then 0
    else 1 + IndexOf(s[1..], c)
  }

  /** The number of occurrences of `c` in `s`. */
  function Count(s: string, c: char): nat {
    if s == [] then 0 else (if s[0] == c then 1 else 0) + Count(s[1..], c)
  }

  /** A domain: a run with a '.' that is neither its first nor its last character. */
  predicate IsDomain(d: string) {
    AllAddressChars(d) && exists j :: 0 < j < |d| - 1 && d[j] == '.'
  }

  /** `validateEmail`: cut the address at its first '@'; what comes before is a
      run and what comes after is a domain. */
  predicate ValidateEmail(e: string)
    ensures ValidateEmail(e) ==> |e| >= 5 && e[0] != '@' && '@' in e
  {
    var k := IndexOf(e, '@');
    && 0 < k < |e|
    && AllAddressChars(e[..k])
    && IsDomain(e[k + 1..])
  }

  /** `validateEmail` accepts exactly the strings of its pattern. */
  lemma ValidateEmailMatchesPattern(e: string)
    ensures ValidateEmail(e) <==> MatchesEmailPattern(e)
  {
    if ValidateEmail(e) {
      var local, d1, d2 := SplitOfValid(e);
    }
    if MatchesEmailPattern(e) {
      var local, d1, d2 :| IsEmailSplit(e, local, d1, d2);
      ValidFromSplit(e, local, d1, d2);
    }
  }

  lemma SplitOfValid(e: string) returns (local: string, d1: string, d2: string)
    requires ValidateEmail(e)
    ensures IsEmailSplit(e, local, d1, d2)
  {
    var k := IndexOf(e, '@');
    var d := e[k + 1..];
    var j :| 0 < j < |d| - 1 && d[j] == '.';
    local, d1, d2 := e[..k], d[..j], d[j + 1..];
    assert AllAddressChars(d1) by {
      forall i | 0 <= i < |d1| ensures IsAddressChar(d1[i]) { assert d1[i] == d[i]; }
    }
    assert AllAddressChars(d2) by {
      forall i | 0 <= i < |d2| ensures IsAddressChar(d2[i]) { assert d2[i] == d[j + 1 + i]; }
    }
    assert d == d1 + "." + d2;
    assert e == local + "@" + d;
  }

  lemma ValidFromSplit(e: string, local: string, d1: string, d2: string)
    requires IsEmailSplit(e, local, d1, d2)
    ensures ValidateEmail(e)
  {
    var k := IndexOf(e, '@');
    assert e[|local|] == '@';
    assert forall i :: 0 <= i < |local| ==> e[i] == local[i];
    assert k == |local|;
    assert e[..k] == local;
    var d := e[k + 1..];
    assert d == d1 + "." + d2;
    assert d[|d1|] == '.';
    assert AllAddressChars(d) by {
      forall i | 0 <= i < |d| ensures IsAddressChar(d[i]) {
        if i < |d1| { assert d[i] == d1[i]; }
        else if i > |d1| { assert d[i] == d2[i - |d1| - 1]; }
      }
    }
  }

  lemma {:induction false} CountConcat(a: string, b: string, c: char)
    ensures Count(a + b, c) == Count(a, c) + Count(b, c)
  {
    if a != [] {
      assert (a + b)[1..] == a[1..] + b;
      CountConcat(a[1..], b, c);
    } else {
      assert a + b == b;
    }
  }

  lemma {:induction false} CountAbsent(s: string)
    requires AllAddressChars(s)
    ensures Count(s, '@') == 0
  {
    if s != [] {
      assert IsAddressChar(s[0]);
      CountAbsent(s[1..]);
    }
  }

  /** An address with no '@', or with two or more, is rejected. */
  lemma RejectsUnlessOneAt(e: string)
    requires Count(e, '@') != 1
    ensures !ValidateEmail(e)
  {
    if ValidateEmail(e) {
      var local, d1, d2 := SplitOfValid(e);
      CountConcat(local, "@", '@');
      CountConcat(local + "@", d1, '@');
      CountConcat(local + "@" + d1, ".", '@');
      CountConcat(local + "@" + d1 + ".", d2, '@');
      CountAbsent(local);
      CountAbsent(d1);
      CountAbsent(d2);
      assert false;
    }
  }

  // ---------------------------------------------------------------------------
  // validatePassword

  /** A JavaScript string's `length`: characters outside the Basic Multilingual
      Plane take two UTF-16 code units. */
  function Utf16Length(s: string): (n: nat)
    ensures |s| <= n <= 2 * |s|
  {
    if s == [] then 0
    else (if s[0] as int > 0xFFFF then 2 else 1) + Utf16Length(s[1..])
  }

  /** `validatePassword`: at least six UTF-16 code units. */
  predicate ValidatePassword(p: string)
    ensures |p| >= 6 ==> ValidatePassword(p)
    ensures ValidatePassword(p) ==> |p| >= 3
  {
    Utf16Length(p) >= 6
  }

  predicate InBasicPlane(s: string) {
    forall i :: 0 <= i < |s| ==> s[i] as int <= 0xFFFF
  }

  lemma {:induction false} Utf16LengthInBasicPlane(s: string)
    requires InBasicPlane(s)
    ensures Utf16Length(s) == |s|
  {
    if s != [] {
      assert s[0] as int <= 0xFFFF;
      Utf16LengthInBasicPlane(s[1..]);
    }
  }

  /** Six characters always suffice and fewer than three never do; on strings
      of the Basic Multilingual Plane the threshold is exactly six characters. */
  lemma PasswordThreshold(p: string)
    ensures |p| >= 6 ==> ValidatePassword(p)
    ensures |p| < 3 ==> !ValidatePassword(p)
    ensures InBasicPlane(p) ==> (ValidatePassword(p) <==> |p| >= 6)
  {
    if InBasicPlane(p) {
      Utf16LengthInBasicPlane(p);
    }
  }

  // ---------------------------------------------------------------------------
  // handleLogin and handleRegister

  const EmailError := "Please enter a valid email address."
  const PasswordError := "Password must be at least 6 characters long."
  const RequestError := "An error occurred. Please try again."
  const LoginFailed := "Login failed"
  const RegistrationFailed := "Registration failed"

  /** The verdict of the checks that precede a request. */
  datatype Gate = Proceed | Reject(message: string)

  /** The checks both handlers make before sending: e-mail first, password second. */
  function CheckCredentials(email: string, password: string): (g: Gate)
    ensures g == Proceed <==> ValidateEmail(email) && ValidatePassword(password)
    ensures !ValidateEmail(email) ==> g == Reject(EmailError)
    ensures ValidateEmail(email) && !ValidatePassword(password) ==> g == Reject(PasswordError)
  {
    if !ValidateEmail(email) then Reject(EmailError)
    else if !ValidatePassword(password) then Reject(PasswordError)
    else Proceed
  }

  /** `data.message || fallback`: a missing or empty message yields the fallback. */
  function ErrorText(message: Option<string>, fallback: string): (text: string)
    ensures text == fallback || (message.Some? && text == message.value)
    ensures text == "" ==> fallback == ""
    ensures message.Some? && message.value != "" ==> text == message.value
  {
    if message.Some? && message.value != "" then message.value else fallback
  }

  /** A request body: `{email, password}` for login, `{name, email, password}` for register. */
  datatype AuthRequest =
    | LoginRequest(email: string, password: string)
    | RegisterRequest(name: string, email: string, password: string)

  /** How a request settled: the fetch or the decoding of its JSON body threw, or
      a response came back with its `ok` flag and the body's `message` field. */
  datatype Reply = Threw | Responded(ok: bool, message: Option<string>)

  /** The form's state: the shown error, the mode, the parent's logged-in flag,
      the requests sent so far and those not yet settled. */
  datatype Form = Form(
    error: string,
    isRegistering: bool,
    isLoggedIn: bool,
    requests: seq<AuthRequest>,
    inFlight: seq<AuthRequest>)

  /** A submit up to its request: the error is cleared, and either a failed check
      sets its message or the request is sent. */
  function Submitted(f: Form, request: AuthRequest): (g: Form)
    ensures g.isLoggedIn == f.isLoggedIn && g.isRegistering == f.isRegistering
    ensures ValidateEmail(request.email) && ValidatePassword(request.password) ==>
      (g.error == "" && g.requests == f.requests + [request] && g.inFlight == f.inFlight + [request])
    ensures !(ValidateEmail(request.email) && ValidatePassword(request.password)) ==>
      (g.error in {EmailError, PasswordError} && g.requests == f.requests && g.inFlight == f.inFlight)
  {
    match CheckCredentials(request.email, request.password)
    case Reject(message) => f.(error := message)
    case Proceed => f.(error := "", requests := f.requests + [request], inFlight := f.inFlight + [request])
  }

  /** The rest of a handler once the `i`-th pending request settles. */
  function Settled(f: Form, i: nat, reply: Reply): (g: Form)
    requires i < |f.inFlight|
    ensures g.requests == f.requests && |g.inFlight| == |f.inFlight| - 1
    ensures g.isLoggedIn <==> f.isLoggedIn || (reply.Responded? && reply.ok && f.inFlight[i].LoginRequest?)
    ensures !g.isRegistering <==> !f.isRegistering || (reply.Responded? && reply.ok && f.inFlight[i].RegisterRequest?)
    ensures reply.Threw? ==> g.error == RequestError
    ensures reply.Responded? && reply.ok ==> g.error == f.error
  {
    var request := f.inFlight[i];
    var g := f.(inFlight := f.inFlight[..i] + f.inFlight[i + 1..]);
    match reply
    case Threw => g.(error := RequestError)
    case Responded(ok, message) =>
      if ok then
        if request.LoginRequest? then g.(isLoggedIn := true) else g.(isRegistering := false)
      else
        g.(error := ErrorText(message, if request.LoginRequest? then LoginFailed else RegistrationFailed))
  }

  /** The `Login` component. `isLoggedIn` is the parent's flag, set through `setIsLoggedIn`. */
  class LoginForm {
    var error: string
    var isRegistering: bool
    var isLoggedIn: bool
    var requests: seq<AuthRequest>
    var inFlight: seq<AuthRequest>

    function Model(): Form
      reads this
    {
      Form(error, isRegistering, isLoggedIn, requests, inFlight)
    }

    /** A fresh form in login mode with no error; `loggedIn` is the parent's flag. */
    constructor (loggedIn: bool)
      ensures Model() == Form("", false, loggedIn, [], [])
    {
      error := "";
      isRegistering := false;
      isLoggedIn := loggedIn;
      requests := [];
      inFlight := [];
    }

    /** The "Register" and "Login" buttons that switch between the two forms. */
    method SwitchMode(registering: bool)
      modifies this
      ensures Model() == old(Model()).(isRegistering := registering)
    {
      isRegistering := registering;
    }

    /** `handleLogin` with the current field values, up to the request. */
    method SubmitLogin(email: string, password: string)
      modifies this
      ensures Model() == Submitted(old(Model()), LoginRequest(email, password))
    {
      Submit(LoginRequest(email, password));
    }

    /** `handleRegister` with the current field values, up to the request. */
    method SubmitRegister(name: string, email: string, password: string)
      modifies this
      ensures Model() == Submitted(old(Model()), RegisterRequest(name, email, password))
    {
      Submit(RegisterRequest(name, email, password));
    }

    method Submit(request: AuthRequest)
      modifies this
      ensures Model() == Submitted(old(Model()), request)
    {
      error := "";
      if !ValidateEmail(request.email) {
        error := EmailError;
        return;
      }
      if !ValidatePassword(request.password) {
        error := PasswordError;
        return;
      }
      requests := requests + [request];
      inFlight := inFlight + [request];
    }

    /** The `i`-th pending request settles with `reply`. */
    method Settle(i: nat, reply: Reply)
      requires i < |inFlight|
      modifies this
      ensures Model() == Settled(old(Model()), i, reply)
    {
      var request := inFlight[i];
      inFlight := inFlight[..i] + inFlight[i + 1..];
      if reply.Threw? {
        error := RequestError;
      } else if reply.ok {
        if request.LoginRequest? {
          isLoggedIn := true;
        } else {
          isRegistering := false;
        }
      } else {
        error := ErrorText(reply.message, if request.LoginRequest? then LoginFailed else RegistrationFailed);
      }
    }
  }

  // ---------------------------------------------------------------------------
  // Properties of the handlers.

  /** An invalid address gives the e-mail error and sends nothing, whatever the password. */
  lemma InvalidEmailSendsNothing(f: Form, email: string, password: string, password': string)
    requires !ValidateEmail(email)
    ensures Submitted(f, LoginRequest(email, password)) == f.(error := EmailError)
    ensures Submitted(f, LoginRequest(email, password)) == Submitted(f, LoginRequest(email, password'))
  {
  }

  /** A valid address with a short password gives the password error and sends nothing. */
  lemma ShortPasswordSendsNothing(f: Form, email: string, password: string)
    requires ValidateEmail(email) && !ValidatePassword(password)
    ensures Submitted(f, LoginRequest(email, password)) == f.(error := PasswordError)
  {
  }

  /** Passing both checks clears the error and sends exactly the one request. */
  lemma ValidCredentialsSendOneRequest(f: Form, request: AuthRequest)
    requires ValidateEmail(request.email) && ValidatePassword(request.password)
    ensures var t := Submitted(f, request);
      t.error == "" && t.requests == f.requests + [request] && t.inFlight == f.inFlight + [request]
  {
  }

  /** Register checks the same things in the same order as login: the same
      error, and a request exactly when login would send one. */
  lemma RegisterValidatesLikeLogin(f: Form, name: string, email: string, password: string)
    ensures var r := Submitted(f, RegisterRequest(name, email, password));
      var l := Submitted(f, LoginRequest(email, password));
      && r.error == l.error
      && |r.requests| == |l.requests|
      && (|r.requests| > |f.requests| <==> CheckCredentials(email, password) == Proceed)
  {
  }

  /** After a login reply: logged in exactly on an ok response; otherwise the
      server's message when it has one, else "Login failed". */
  lemma LoginReplyHandled(f: Form, i: nat, reply: Reply)
    requires i < |f.inFlight| && f.inFlight[i].LoginRequest?
    ensures var t := Settled(f, i, reply);
      && (t.isLoggedIn <==> f.isLoggedIn || (reply.Responded? && reply.ok))
      && t.isRegistering == f.isRegistering
      && (reply.Threw? ==> t.error == RequestError)
      && (reply.Responded? && !reply.ok ==> t.error == ErrorText(reply.message, LoginFailed) && t.error != "")
      && (reply.Responded? && reply.ok ==> t.error == f.error)
  {
  }

  /** After a register reply: back to the login form exactly on an ok response;
      otherwise the server's message when it has one, else "Registration failed". */
  lemma RegisterReplyHandled(f: Form, i: nat, reply: Reply)
    requires i < |f.inFlight| && f.inFlight[i].RegisterRequest?
    ensures var t := Settled(f, i, reply);
      && t.isLoggedIn == f.isLoggedIn
      && (reply.Responded? && reply.ok ==> !t.isRegistering && t.error == f.error)
      && (!(reply.Responded? && reply.ok) ==> t.isRegistering == f.isRegistering)
      && (reply.Threw? ==> t.error == RequestError)
      && (reply.Responded? && !reply.ok ==> t.error == ErrorText(reply.message, RegistrationFailed) && t.error != "")
  {
  }
}
