/** The sign-in screen: email and password sign-in, Google sign-in, and a
    demo mode used when no authentication backend is configured. */
module Login {
  import opened Wrappers
  import opened Errors
  import opened Strings

  // ---------------------------------------------------------------------------
  // Error messages
  // ---------------------------------------------------------------------------

  const DefaultSignInError := "Failed to sign in."
  const InvalidCredentialMessage := "Invalid email or password."
  const UserNotFoundMessage := "No user found with this email."
  const WrongPasswordMessage := "Incorrect password."
  const DemoHint := "Enter any email/password " + "for demo mode."
  const GoogleFallback := "Failed to sign in " + "with Google"

  /** The error codes the screen explains, with their messages: the reference
      the message chain of `handleLogin` is checked against. */
  const CodeMessages: map<string, string> := map[
    "auth/invalid-credential" := InvalidCredentialMessage,
    "auth/user-not-found" := UserNotFoundMessage,
    "auth/wrong-password" := WrongPasswordMessage]

  /** The message `handleLogin` shows for a thrown value: the default,
      overwritten by each code test in turn, and finally by the raw message
      when no backend is configured (None stands for an `undefined` message).
      With a backend, a known code gets its message from the table and any
      other code, or none, the default; without one, the code is ignored. */
  function SignInErrorMessage(err: Thrown, authConfigured: bool): (msg: Option<string>)
    ensures !authConfigured ==> msg == err.Message()
    ensures authConfigured ==>
      msg == Some(if err.Code().Some? && err.Code().value in CodeMessages then CodeMessages[err.Code().value]
                  else DefaultSignInError)
  {
    var m0 := DefaultSignInError;
    var m1 := if err.Code() == Some("auth/invalid-credential") then InvalidCredentialMessage else m0;
    var m2 := if err.Code() == Some("auth/user-not-found") then UserNotFoundMessage else m1;
    var m3 := if err.Code() == Some("auth/wrong-password") then WrongPasswordMessage else m2;
    if !authConfigured then err.Message() else Some(m3)
  }

  /** With a backend, the message shown tells which explained code was
      thrown: two errors shown the same explained message carry the same
      code, and the default means no explained code. */
  lemma SignInMessageNamesCode(e1: Thrown, e2: Thrown)
    requires SignInErrorMessage(e1, true) == SignInErrorMessage(e2, true)
    ensures SignInErrorMessage(e1, true) == Some(DefaultSignInError) <==>
      !(e1.Code().Some? && e1.Code().value in CodeMessages)
    ensures SignInErrorMessage(e1, true) != Some(DefaultSignInError) ==> e1.Code() == e2.Code()
  {
    // The four messages have different lengths, so they are pairwise different.
    assert |DefaultSignInError| == 18 && |InvalidCredentialMessage| == 26 &&
           |UserNotFoundMessage| == 30 && |WrongPasswordMessage| == 19;
  }

  /** Codes match exactly: the same code in another letter case is not
      explained. */
  lemma CodesMatchExactly(err: Thrown)
    requires err.Code() == Some("AUTH/WRONG-PASSWORD")
    ensures SignInErrorMessage(err, true) == Some(DefaultSignInError)
  {
    assert "AUTH/WRONG-PASSWORD" !in CodeMessages by {
      assert "AUTH/WRONG-PASSWORD"[0] != "auth/wrong-password"[0];
    }
  }

  /** The message a failed Google sign-in shows: the thrown message when it
      is non-empty, the fixed fallback otherwise, so never an empty one. */
  function GoogleErrorMessage(err: Thrown): (msg: string)
    ensures Truthy(err.Message()) ==> msg == err.Message().value
    ensures !Truthy(err.Message()) ==> msg == GoogleFallback
    ensures msg != ""
  {
    if Truthy(err.Message()) then err.Message().value
    else
      assert |GoogleFallback| > 0;
      GoogleFallback
  }

  // ---------------------------------------------------------------------------
  // The screen
  // ---------------------------------------------------------------------------

  /** What an email sign-in sends to the backend. */
  datatype Credentials = Credentials(email: string, password: string)

  class LoginForm {
    var email: string
    var password: string
    var loading: bool
    var isGoogleLoading: bool
    var error: string

    constructor()
      ensures email == "" && password == "" && !loading && !isGoogleLoading && error == ""
    {
      email := "";
      password := "";
      loading := false;
      isGoogleLoading := false;
      error := "";
    }

    method SetEmail(e: string)
      modifies this
      ensures email == e
      ensures password == old(password) && loading == old(loading) && isGoogleLoading == old(isGoogleLoading)
      ensures error == old(error)
    {
      email := e;
    }

    method SetPassword(p: string)
      modifies this
      ensures password == p
      ensures email == old(email) && loading == old(loading) && isGoogleLoading == old(isGoogleLoading)
      ensures error == old(error)
    {
      password := p;
    }

    /** Both buttons are disabled while either sign-in is under way. */
    predicate SubmitDisabled()
      reads this
    {
      loading || isGoogleLoading
    }

    predicate GoogleDisabled()
      reads this
    {
      isGoogleLoading || loading
    }

    /** `handleLogin`, with the backend's answer as an input. With a
        backend the credentials are sent, and a rejection shows the message
        for its code; success leaves the redirect to the auth listener.
        Without one, the demo signs in exactly when both fields are filled
        in, and shows the demo hint otherwise. The old error is cleared first
        and loading ends false. */
    method HandleLogin(authConfigured: bool, signIn: Outcome<Thrown>)
      returns (sent: Option<Credentials>, loggedIn: bool)
      modifies this
      ensures email == old(email) && password == old(password) && isGoogleLoading == old(isGoogleLoading)
      ensures !loading
      ensures sent == (if authConfigured then Some(Credentials(email, password)) else None)
      ensures loggedIn <==> !authConfigured && email != "" && password != ""
      ensures authConfigured ==> error == (if signIn.Fail? then SignInErrorMessage(signIn.error, true).value else "")
      ensures !authConfigured ==> error == (if loggedIn then "" else DemoHint)
    {
      loading := true;
      error := "";
      loggedIn := false;
      if authConfigured {
        sent := Some(Credentials(email, password));
        if signIn.Fail? {
          error := SignInErrorMessage(signIn.error, true).value;
        }
      } else {
        sent := None;
        if email != "" && password != "" {
          loggedIn := true;
        } else {
          var thrown := NewError(DemoHint);
          error := SignInErrorMessage(thrown, false).value;
        }
      }
      loading := false;
    }

    /** `handleGoogleLogin`, with the popup's outcome as an input. With a
        backend and a provider the popup opens, and a failure shows its
        message or the fallback; without them the demo signs in at once. The
        old error is cleared first and the Google spinner ends false. */
    method HandleGoogleLogin(providerConfigured: bool, popup: Outcome<Thrown>)
      returns (popupOpened: bool, loggedIn: bool)
      modifies this
      ensures email == old(email) && password == old(password) && loading == old(loading)
      ensures !isGoogleLoading
      ensures popupOpened <==> providerConfigured
      ensures loggedIn <==> !providerConfigured
      ensures error == (if providerConfigured && popup.Fail? then GoogleErrorMessage(popup.error) else "")
      ensures providerConfigured && popup.Fail? ==> error != ""
    {
      isGoogleLoading := true;
      error := "";
      popupOpened := providerConfigured;
      loggedIn := !providerConfigured;
      if providerConfigured && popup.Fail? {
        error := GoogleErrorMessage(popup.error);
      }
      isGoogleLoading := false;
    }
  }
}
