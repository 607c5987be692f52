/**
 * The sign-in page (client/src/pages/Login.jsx): the two-field form, its
 * change handler, and the submit lifecycle around the `login` service call.
 */
module LoginPage {
  import opened Wrappers
  import opened ApiErrors

  type Form = map<string, string>

  const InitialForm: Form := map["email" := "", "password" := ""]

  const LoginPrefix := "Login failed: "
  const LoginFallback := "Login failed. Please try again."

  /** How the `login` call ended. */
  datatype LoginOutcome = SignedIn | Rejected(error: RequestError)

  class SignIn {
    var formData: Form
    var isLoading: bool
    var error: string
    /** The argument of each `login` call, oldest first. */
    var loginCalls: seq<Form>

    constructor ()
      ensures formData == InitialForm && !isLoading && error == "" && loginCalls == []
    {
      formData := InitialForm;
      isLoading := false;
      error := "";
      loginCalls := [];
    }

    /** `handleChange`: only the named entry takes the new value, and any
        error is cleared. */
    method HandleChange(name: string, value: string)
      modifies this
      ensures formData == old(formData)[name := value]
      ensures forall k :: k in old(formData) && k != name ==> k in formData && formData[k] == old(formData)[k]
      ensures error == ""
      ensures isLoading == old(isLoading) && loginCalls == old(loginCalls)
    {
      formData := formData[name := value];
      if error != "" {
        error := "";
      }
    }

    /** Up to the pending `login(formData)` call: loading, the error cleared,
        and the call made with the form exactly as it stands. */
    method BeginSubmit()
      modifies this
      ensures isLoading && error == "" && formData == old(formData)
      ensures loginCalls == old(loginCalls) + [formData]
    {
      isLoading := true;
      error := "";
      loginCalls := loginCalls + [formData];
    }

    /** The `catch` and `finally` of `handleSubmit`. */
    method FinishSubmit(outcome: LoginOutcome)
      modifies this
      ensures !isLoading && formData == old(formData) && loginCalls == old(loginCalls)
      ensures outcome.SignedIn? ==> error == old(error)
      ensures outcome.Rejected? ==> error == Describe(outcome.error, LoginPrefix, LoginFallback)
    {
      if outcome.Rejected? {
        error := Describe(outcome.error, LoginPrefix, LoginFallback);
      }
      isLoading := false;
    }

    /** `handleSubmit` with the service's answer given: loading ends either way,
        the error is empty after a success and classified after a failure. */
    method HandleSubmit(outcome: LoginOutcome)
      modifies this
      ensures !isLoading && formData == old(formData)
      ensures loginCalls == old(loginCalls) + [old(formData)]
      ensures error == if outcome.Rejected? then Describe(outcome.error, LoginPrefix, LoginFallback) else ""
    {
      BeginSubmit();
      FinishSubmit(outcome);
    }
  }

  /** The sign-in a user performs by typing an email and a password and
      submitting: the service is called with exactly those two fields. */
  method TypeAndSubmit(email: string, password: string, outcome: LoginOutcome) returns (page: SignIn)
    ensures fresh(page)
    ensures page.loginCalls == [map["email" := email, "password" := password]]
    ensures !page.isLoading
  {
    page := new SignIn();
    page.HandleChange("email", email);
    page.HandleChange("password", password);
    page.HandleSubmit(outcome);
    assert page.loginCalls[0] == map["email" := email, "password" := password];
  }
}
