/** The account settings form (components/Settings.tsx): change the phone
    number and the password of the signed-in account. */
module Settings {
  import opened Seqs
  import opened Types

  /** The message the form shows; `NoError` is the empty string. */
  datatype SettingsError = NoError | PasswordMismatch | InvalidPhone

  /** The two checks, in the order the form runs them. */
  function Validate(phone: string, password: string, confirmation: string): (e: SettingsError)
    ensures e == NoError <==> password == confirmation && |phone| >= 10
    ensures password != confirmation ==> e == PasswordMismatch
    ensures e == InvalidPhone <==> password == confirmation && |phone| < 10
  {
    if password != confirmation then PasswordMismatch
    else if |phone| < 10 then InvalidPhone
    else NoError
  }

  /** `{ ...user, phone, password }`. */
  function WithCredentials(user: User, phone: string, password: string): (r: User)
    ensures r.phone == phone && r.password == Some(password)
    ensures r.(phone := user.phone, password := user.password) == user
  {
    user.(phone := phone, password := Some(password))
  }

  class SettingsForm {
    var phone: string
    var password: string
    var confirmPassword: string
    var saved: bool
    var error: SettingsError

    /** The inputs start from the account; a missing password shows as empty. */
    constructor (user: User)
      ensures phone == user.phone && password == OrEmpty(user.password) && confirmPassword == OrEmpty(user.password)
      ensures !saved && error == NoError
    {
      phone := user.phone;
      password := OrEmpty(user.password);
      confirmPassword := OrEmpty(user.password);
      saved := false;
      error := NoError;
    }

    method Edit(newPhone: string, newPassword: string, newConfirmation: string)
      modifies this`phone, this`password, this`confirmPassword
      ensures phone == newPhone && password == newPassword && confirmPassword == newConfirmation
    {
      phone, password, confirmPassword := newPhone, newPassword, newConfirmation;
    }

    /** `handleSave`: the error is reset, then either one check fails and
        nothing is sent, or `onUpdateUser` receives the updated account. */
    method Save(user: User) returns (update: Option<User>)
      modifies this`error, this`saved
      ensures error == Validate(phone, password, confirmPassword)
      ensures update.Some? <==> error == NoError
      ensures update.Some? ==> update.value == WithCredentials(user, phone, password) && saved
      ensures update.None? ==> saved == old(saved)
    {
      error := NoError;
      if password != confirmPassword {
        error := PasswordMismatch;
        return None;
      }
      if |phone| < 10 {
        error := InvalidPhone;
        return None;
      }
      update := Some(WithCredentials(user, phone, password));
      saved := true;
    }

    /** The confirmation banner's timer runs out. */
    method SavedBannerElapsed()
      modifies this`saved
      ensures !saved
    {
      saved := false;
    }
  }
}
