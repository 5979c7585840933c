/** The settings page's PIN-change form: its ordered checks and what its submit does. */
module Settings {
  import opened Wrappers
  import opened Auth

  /** The three reasons the form refuses a submit. */
  datatype FormError = EmptyField | Mismatch | BadLength

  /** The checks of `handleSubmit`, in their order: a field left empty, then a new PIN that
      differs from its confirmation, then a new PIN whose length is not 4. The characters
      themselves are never checked. */
  function Validate(oldPin: string, newPin: string, confirmPin: string): (r: Option<FormError>)
    ensures r == Some(EmptyField) <==> oldPin == "" || newPin == "" || confirmPin == ""
    ensures r == Some(Mismatch) <==> oldPin != "" && newPin != "" && confirmPin != "" && newPin != confirmPin
    ensures r == Some(BadLength) <==>
              oldPin != "" && newPin != "" && confirmPin != "" && newPin == confirmPin && |newPin| != 4
    ensures r == None <==>
              oldPin != "" && newPin != "" && confirmPin != "" && newPin == confirmPin && |newPin| == 4
  {
    if oldPin == "" || newPin == "" || confirmPin == "" then Some(EmptyField)
    else if newPin != confirmPin then Some(Mismatch)
    else if |newPin| != 4 then Some(BadLength)
    else None
  }

  /** Any four characters pass as a new PIN, digits or not. */
  lemma NonDigitPinAccepted()
    ensures Validate("1234", "abcd", "abcd") == None
  {
  }

  /** A notification shown by the page. */
  datatype Toast = Toast(destructive: bool, title: string, description: string)

  function FormErrorToast(e: FormError): Toast {
    Toast(true, "Erreur", match e
      case EmptyField => "Veuillez remplir tous les champs."
      case Mismatch => "Les nouveaux codes PIN ne correspondent pas."
      case BadLength => "Le nouveau code PIN doit contenir 4 chiffres.")
  }

  const SuccessToast := Toast(false, "Succès", "Votre code PIN a été modifié.")

  /** The PIN change the page's call actually requests: `changePin(user.username, oldPin,
      newPin)` against `changePin(oldPin, newPin)` binds the username as the old PIN and the
      typed old PIN as the new one; the typed new PIN is dropped. */
  function SubmittedChange(s: AuthState, oldPin: string, newPin: string): (r: Step)
    requires s.user.Some?
    ensures r.outcome.Pass? <==> s.user.value in s.store && s.store[s.user.value] == MockHash(s.user.value)
    ensures r.outcome.Pass? ==>
              s.user.value in r.state.store && r.state.store[s.user.value] == MockHash(oldPin)
    ensures r.outcome.Fail? ==> r.state == s
  {
    ChangePinStep(s, s.user.value, oldPin)
  }

  /** The form as written: the stored PIN is checked against the username, so a user who
      types the right old PIN changes nothing, while the page still reports success. */
  lemma TypedOldPinIgnored()
    ensures var s := AuthState(Some("awa"), map["awa" := MockHash("1234")]);
            && Validate("1234", "5678", "5678") == None
            && SubmittedChange(s, "1234", "5678") == Step(Fail(WrongOldPin), s)
            && ChangePinStep(s, "1234", "5678").state.store["awa"] == MockHash("5678")
  {
    var s := AuthState(Some("awa"), map["awa" := MockHash("1234")]);
    assert MockHash("1234") != MockHash("awa") by {
      assert MockHash("1234")[7] != MockHash("awa")[7];
    }
  }

  /** The form as written, for a user whose PIN happens to equal their username: the typed
      old PIN becomes the new PIN, whatever was typed as the new one. */
  lemma OldPinStoredAsNew(oldPin: string, newPin: string)
    requires oldPin != newPin
    ensures var s := AuthState(Some(oldPin), map[oldPin := MockHash(oldPin)]);
            && SubmittedChange(s, oldPin, newPin).outcome.Pass?
            && oldPin in SubmittedChange(s, oldPin, newPin).state.store
            && SubmittedChange(s, oldPin, newPin).state.store[oldPin] != MockHash(newPin)
  {
    var s := AuthState(Some(oldPin), map[oldPin := MockHash(oldPin)]);
    if SubmittedChange(s, oldPin, newPin).state.store[oldPin] == MockHash(newPin) {
      MockHashInjective(oldPin, newPin);
    }
  }

  /** The settings page's form state. */
  class SettingsPage {
    var oldPin: string
    var newPin: string
    var confirmPin: string
    var isLoading: bool
    /** The last notification shown. */
    var toast: Option<Toast>

    constructor ()
      ensures oldPin == "" && newPin == "" && confirmPin == "" && !isLoading && toast == None
    {
      oldPin, newPin, confirmPin := "", "", "";
      isLoading := false;
      toast := None;
    }

    /** `handleSubmit` as written, its deferred block run to completion. A failed check
        shows its message and changes nothing else. Otherwise, with a user in session, the
        misbound PIN change is requested, its outcome is not awaited, success is reported
        and the fields are cleared; loading ends in every case. */
    method HandleSubmit(auth: AuthProvider)
      modifies this, auth
      ensures var e := Validate(old(oldPin), old(newPin), old(confirmPin));
        e.Some? ==> toast == Some(FormErrorToast(e.value)) && isLoading == old(isLoading)
                    && oldPin == old(oldPin) && newPin == old(newPin) && confirmPin == old(confirmPin)
                    && auth.State() == old(auth.State())
      ensures Validate(old(oldPin), old(newPin), old(confirmPin)) == None ==>
        !isLoading &&
        if old(auth.user).Some? then
          && auth.State() == SubmittedChange(old(auth.State()), old(oldPin), old(newPin)).state
          && toast == Some(SuccessToast) && oldPin == "" && newPin == "" && confirmPin == ""
        else
          auth.State() == old(auth.State()) && toast == old(toast)
          && oldPin == old(oldPin) && newPin == old(newPin) && confirmPin == old(confirmPin)
      ensures auth.isAuthLoading == old(auth.isAuthLoading) && auth.isRegistering == old(auth.isRegistering)
    {
      var invalid := Validate(oldPin, newPin, confirmPin);
      if invalid.Some? {
        toast := Some(FormErrorToast(invalid.value));
        return;
      }
      isLoading := true;
      if auth.user.Some? {
        var _ := auth.ChangePin(auth.user.value, oldPin);
        toast := Some(SuccessToast);
        oldPin, newPin, confirmPin := "", "", "";
      }
      isLoading := false;
    }

    /** `handleSubmit` as evidently intended: the typed old and new PINs are passed in
        their places and the outcome is awaited, so a refused change shows its reason and
        keeps the fields, and success is reported only when the new PIN was stored. */
    method HandleSubmitCorrected(auth: AuthProvider)
      modifies this, auth
      ensures var e := Validate(old(oldPin), old(newPin), old(confirmPin));
        e.Some? ==> toast == Some(FormErrorToast(e.value)) && isLoading == old(isLoading)
                    && oldPin == old(oldPin) && newPin == old(newPin) && confirmPin == old(confirmPin)
                    && auth.State() == old(auth.State())
      ensures Validate(old(oldPin), old(newPin), old(confirmPin)) == None ==>
        var r := ChangePinStep(old(auth.State()), old(oldPin), old(newPin));
        && !isLoading && auth.State() == r.state
        && (r.outcome.Pass? ==> toast == Some(SuccessToast) && oldPin == "" && newPin == "" && confirmPin == "")
        && (r.outcome.Fail? ==> toast == Some(Toast(true, "Erreur", Message(r.outcome.error)))
                                && oldPin == old(oldPin) && newPin == old(newPin) && confirmPin == old(confirmPin))
      ensures auth.isAuthLoading == old(auth.isAuthLoading) && auth.isRegistering == old(auth.isRegistering)
    {
      var invalid := Validate(oldPin, newPin, confirmPin);
      if invalid.Some? {
        toast := Some(FormErrorToast(invalid.value));
        return;
      }
      isLoading := true;
      var outcome := auth.ChangePin(oldPin, newPin);
      if outcome.Pass? {
        toast := Some(SuccessToast);
        oldPin, newPin, confirmPin := "", "", "";
      } else {
        toast := Some(Toast(true, "Erreur", Message(outcome.error)));
      }
      isLoading := false;
    }
  }
}
