/** The settings page (src/components/pages/SettingsPage.tsx): the profile form kept in
    step with the signed-in user, saving the profile by re-reading the user, and the
    local checks of the password-change form. */
module Settings {
  import opened Common

  /** The fields of the signed-in user that the page reads; each may be missing. */
  datatype ProfileSource = ProfileSource(email: Option<string>, fullName: Option<string>, profileImageUrl: Option<string>)

  /** `s || ""`: a missing or empty string becomes empty. */
  function OrEmpty(s: Option<string>): (r: string)
    ensures s.Some? ==> r == s.value
    ensures s.None? ==> r == ""
  {
    if s.Some? then s.value else ""
  }

  /** `s || null`: a missing or empty string becomes no value. */
  function OrNull(s: Option<string>): (r: Option<string>)
    ensures r.Some? <==> s.Some? && s.value != ""
    ensures r.Some? ==> r == s
  {
    if s.Some? && s.value != "" then s else None
  }

  const ProfileSavedAlert := "프로필이 업데이트되었습니다."
  const ProfileSaveFailedText := "프로필 업데이트에 실패했습니다."
  const PasswordMismatchAlert := "새 비밀번호가 일치하지 않습니다."
  const PasswordTooShortAlert := "비밀번호는 최소 8자 이상이어야 합니다."
  const PasswordChangedAlert := "비밀번호가 변경되었습니다."
  const MinPasswordLength := 8

  /** The alert that refuses a password change, if any: a mismatch is reported before
      the length is looked at. */
  function PasswordChangeRefusal(newPassword: string, confirmPassword: string): (r: Option<string>)
    ensures r.None? <==> newPassword == confirmPassword && |newPassword| >= MinPasswordLength
    ensures newPassword != confirmPassword ==> r == Some(PasswordMismatchAlert)
    ensures newPassword == confirmPassword && |newPassword| < MinPasswordLength ==> r == Some(PasswordTooShortAlert)
  {
    if newPassword != confirmPassword then Some(PasswordMismatchAlert)
    else if |newPassword| < MinPasswordLength then Some(PasswordTooShortAlert)
    else None
  }

  /** Whether the change-password button can be pressed. */
  predicate ChangeButtonEnabled(isSaving: bool, currentPassword: string, newPassword: string, confirmPassword: string)
  {
    !isSaving && currentPassword != "" && newPassword != "" && confirmPassword != ""
  }

  /** The button being enabled does not decide the outcome: the local checks still refuse
      a mismatch, and a one-character password passes the button but not the length check. */
  lemma EnabledButtonCanStillBeRefused()
    ensures ChangeButtonEnabled(false, "a", "b", "c") && PasswordChangeRefusal("b", "c") == Some(PasswordMismatchAlert)
    ensures ChangeButtonEnabled(false, "a", "b", "b") && PasswordChangeRefusal("b", "b") == Some(PasswordTooShortAlert)
  {
  }

  class SettingsPage {
    var email: string
    var nickname: string
    var currentPassword: string
    var newPassword: string
    var confirmPassword: string
    var profileImage: Option<string>
    var isSaving: bool

    /** The initial state, from the user present at first render. */
    constructor (user: Option<ProfileSource>)
      ensures user.Some? ==>
        email == OrEmpty(user.value.email) && nickname == OrEmpty(user.value.fullName)
        && profileImage == OrNull(user.value.profileImageUrl)
      ensures user.None? ==> email == "" && nickname == "" && profileImage == None
      ensures currentPassword == "" && newPassword == "" && confirmPassword == "" && !isSaving
    {
      if user.Some? {
        email := OrEmpty(user.value.email);
        nickname := OrEmpty(user.value.fullName);
        profileImage := OrNull(user.value.profileImageUrl);
      } else {
        email := "";
        nickname := "";
        profileImage := None;
      }
      currentPassword := "";
      newPassword := "";
      confirmPassword := "";
      isSaving := false;
    }

    /** The effect on `user`: a present user overwrites the profile fields; a signed-out
        user leaves them as they are. The password fields are never touched. */
    method UserChanged(user: Option<ProfileSource>)
      modifies this`email, this`nickname, this`profileImage
      ensures user.Some? ==>
        email == OrEmpty(user.value.email) && nickname == OrEmpty(user.value.fullName)
        && profileImage == OrNull(user.value.profileImageUrl)
      ensures user.None? ==> email == old(email) && nickname == old(nickname) && profileImage == old(profileImage)
    {
      if user.Some? {
        email := OrEmpty(user.value.email);
        nickname := OrEmpty(user.value.fullName);
        profileImage := OrNull(user.value.profileImageUrl);
      }
    }

    /** The file reader finished: the preview becomes the data URL it produced. */
    method ImagePreviewLoaded(dataUrl: string)
      modifies this`profileImage
      ensures profileImage == Some(dataUrl)
    {
      profileImage := Some(dataUrl);
    }

    /** handleSaveProfile: `refreshed` is what `refreshUser` threw, if anything. */
    method SaveProfile(refreshed: Option<Thrown>) returns (alert: string)
      modifies this`isSaving
      ensures refreshed.None? ==> alert == ProfileSavedAlert
      ensures refreshed.Some? ==> alert == MessageOr(refreshed.value, ProfileSaveFailedText)
      ensures !isSaving
    {
      isSaving := true;
      match refreshed {
        case None => alert := ProfileSavedAlert;
        case Some(e) => alert := MessageOr(e, ProfileSaveFailedText);
      }
      isSaving := false;
    }

    /** handleChangePassword: refused changes alert and change nothing; an accepted
        change clears the three password fields, which disables the button again. */
    method ChangePassword() returns (alert: string)
      modifies this`currentPassword, this`newPassword, this`confirmPassword, this`isSaving
      ensures PasswordChangeRefusal(old(newPassword), old(confirmPassword)).Some? ==>
        alert == PasswordChangeRefusal(old(newPassword), old(confirmPassword)).value
        && currentPassword == old(currentPassword) && newPassword == old(newPassword)
        && confirmPassword == old(confirmPassword) && isSaving == old(isSaving)
      ensures PasswordChangeRefusal(old(newPassword), old(confirmPassword)).None? ==>
        alert == PasswordChangedAlert && currentPassword == "" && newPassword == "" && confirmPassword == ""
        && !isSaving && !ChangeButtonEnabled(isSaving, currentPassword, newPassword, confirmPassword)
    {
      if newPassword != confirmPassword {
        return PasswordMismatchAlert;
      }
      if |newPassword| < MinPasswordLength {
        return PasswordTooShortAlert;
      }
      isSaving := true;
      currentPassword := "";
      newPassword := "";
      confirmPassword := "";
      alert := PasswordChangedAlert;
      isSaving := false;
    }
  }
}
