/** The registration screen's view-model: checks the password length, then
    sends the registration. */
module RegisterViewModel {
  import opened Common
  import opened Api

  datatype UiState = Idle | Loading | Success(token: Option<string>) | Error(message: string)

  const MinPasswordLength: nat := 6
  const PasswordTooShort: string := "Password must be at least 6 characters"
  const RegistrationFailed: string := "Registration failed. Username or email might already exist."
  const UnexpectedError: string := "An unexpected error occurred"

  /** Kotlin's `String.length`: the number of UTF-16 code units, two for a
      character outside the Basic Multilingual Plane. */
  function Utf16Length(s: string): (n: nat)
    ensures |s| <= n <= 2 * |s|
  {
    if s == [] then 0
    else (if s[0] as int > 0xFFFF then 2 else 1) + Utf16Length(s[1..])
  }

  /** On text of the Basic Multilingual Plane the two lengths agree. */
  lemma {:induction false} Utf16LengthBmp(s: string)
    requires forall i :: 0 <= i < |s| ==> s[i] as int <= 0xFFFF
    ensures Utf16Length(s) == |s|
  {
    if s != [] {
      assert forall i :: 0 <= i < |s[1..]| ==> s[1..][i] == s[i + 1];
      Utf16LengthBmp(s[1..]);
    }
  }

  predicate PasswordTooShortFor(request: RegisterRequest) {
    Utf16Length(request.password) < MinPasswordLength
  }

  /** The state `register` settles in. */
  function RegisteredState(request: RegisterRequest, registerCall: Call<User>): (s: UiState)
    ensures s != Loading && s != Idle
    ensures PasswordTooShortFor(request) ==> s == Error(PasswordTooShort)
    ensures s.Success? <==>
      (!PasswordTooShortFor(request) && registerCall.Returned? && registerCall.response.IsSuccessful())
    ensures s.Success? ==> s.token.None?
    ensures !PasswordTooShortFor(request) && registerCall.Returned? && !registerCall.response.IsSuccessful() ==>
      s == Error(RegistrationFailed)
    ensures !PasswordTooShortFor(request) && registerCall.Threw? ==>
      s == Error(registerCall.failure.message.OrElse(UnexpectedError))
  {
    if PasswordTooShortFor(request) then Error(PasswordTooShort)
    else match registerCall
      case Threw(e) => Error(e.message.OrElse(UnexpectedError))
      case Returned(response) =>
        if response.IsSuccessful() then Success(None) else Error(RegistrationFailed)
  }

  /** Any password of at least six characters passes the length check,
      and a password that fails it has fewer than six characters. */
  lemma LengthCheckByCharacters(request: RegisterRequest)
    ensures |request.password| >= MinPasswordLength ==> !PasswordTooShortFor(request)
    ensures PasswordTooShortFor(request) ==> |request.password| < MinPasswordLength
  {
  }

  class RegisterViewModel {
    /** The current value of the screen's state flow. */
    var uiState: UiState
    /** Every value written to the state flow, oldest first. */
    var emitted: seq<UiState>
    /** Every request sent, oldest first. */
    var requests: seq<Request>

    predicate Valid()
      reads this
    {
      emitted != [] && emitted[|emitted| - 1] == uiState
    }

    constructor()
      ensures Valid() && uiState == Idle && emitted == [Idle] && requests == []
    {
      uiState := Idle;
      emitted := [Idle];
      requests := [];
    }

    method Emit(s: UiState)
      modifies this`uiState, this`emitted
      ensures uiState == s && emitted == old(emitted) + [s]
    {
      uiState := s;
      emitted := emitted + [s];
    }

    /** `register`: Loading first; a short password is refused before any request. */
    method Register(registerRequest: RegisterRequest, registerCall: Call<User>)
      modifies this`uiState, this`emitted, this`requests
      ensures uiState == RegisteredState(registerRequest, registerCall)
      ensures emitted == old(emitted) + [Loading, uiState]
      ensures PasswordTooShortFor(registerRequest) ==> requests == old(requests)
      ensures !PasswordTooShortFor(registerRequest) ==> requests == old(requests) + [Api.Register(registerRequest)]
    {
      Emit(Loading);
      if Utf16Length(registerRequest.password) < MinPasswordLength {
        Emit(Error(PasswordTooShort));
        return;
      }
      requests := requests + [Api.Register(registerRequest)];
      match registerCall {
        case Threw(e) =>
          Emit(Error(e.message.OrElse(UnexpectedError)));
        case Returned(response) =>
          if response.IsSuccessful() {
            Emit(Success(None));
          } else {
            Emit(Error(RegistrationFailed));
          }
      }
    }
  }
}
