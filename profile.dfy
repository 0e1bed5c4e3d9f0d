/** `src/pages/user/Profile.tsx`: the student's profile form, password form
    and notification switches. */
module ProfilePage {
  import opened Common
  import opened Auth

  datatype ProfileData = ProfileData(
    name: string, email: string, bio: string, location: string, website: string,
    currentPassword: string, newPassword: string, confirmPassword: string)

  /** The `name` attribute of the form's inputs. */
  datatype ProfileField = Name | Email | Bio | Location | Website | CurrentPassword | NewPassword | ConfirmPassword

  datatype Notifications = Notifications(courseUpdates: bool, newCourses: bool, promotions: bool, accountAlerts: bool)

  datatype NotificationKey = CourseUpdates | NewCourses | Promotions | AccountAlerts

  /** The initial profile: name and email from the session (`""` when no
      one is signed in), the rest fixed. */
  function InitialProfile(user: Option<Session>): (p: ProfileData)
    ensures user.Some? ==> p.name == user.value.name && p.email == user.value.email
    ensures user.None? ==> p.name == "" && p.email == ""
    ensures p.currentPassword == "" && p.newPassword == "" && p.confirmPassword == ""
  {
    ProfileData(
      if user.Some? then user.value.name else "",
      if user.Some? then user.value.email else "",
      "Learning enthusiast passionate about web development and design.",
      "San Francisco, CA",
      "https://example.com",
      "", "", "")
  }

  const InitialNotifications := Notifications(true, true, false, true)

  function Get(p: ProfileData, f: ProfileField): string
  {
    match f
    case Name => p.name
    case Email => p.email
    case Bio => p.bio
    case Location => p.location
    case Website => p.website
    case CurrentPassword => p.currentPassword
    case NewPassword => p.newPassword
    case ConfirmPassword => p.confirmPassword
  }

  /** `{ ...prev, [name]: value }`. */
  function SetField(p: ProfileData, f: ProfileField, value: string): (r: ProfileData)
    ensures Get(r, f) == value
    ensures forall g :: g != f ==> Get(r, g) == Get(p, g)
  {
    match f
    case Name => p.(name := value)
    case Email => p.(email := value)
    case Bio => p.(bio := value)
    case Location => p.(location := value)
    case Website => p.(website := value)
    case CurrentPassword => p.(currentPassword := value)
    case NewPassword => p.(newPassword := value)
    case ConfirmPassword => p.(confirmPassword := value)
  }

  function Flag(n: Notifications, k: NotificationKey): bool
  {
    match k
    case CourseUpdates => n.courseUpdates
    case NewCourses => n.newCourses
    case Promotions => n.promotions
    case AccountAlerts => n.accountAlerts
  }

  /** `{ ...prev, [key]: !prev[key] }`: exactly the named switch flips. */
  function Flip(n: Notifications, k: NotificationKey): (r: Notifications)
    ensures Flag(r, k) == !Flag(n, k)
    ensures forall j :: j != k ==> Flag(r, j) == Flag(n, j)
  {
    match k
    case CourseUpdates => n.(courseUpdates := !n.courseUpdates)
    case NewCourses => n.(newCourses := !n.newCourses)
    case Promotions => n.(promotions := !n.promotions)
    case AccountAlerts => n.(accountAlerts := !n.accountAlerts)
  }

  /** Flipping the same switch twice restores the settings. */
  lemma FlipTwice(n: Notifications, k: NotificationKey)
    ensures Flip(Flip(n, k), k) == n
  {
  }

  /** The accepted branch of `handleSubmitPassword`: the two new-password
      fields agree; the current password is never looked at. */
  predicate PasswordsMatch(p: ProfileData)
  {
    p.newPassword == p.confirmPassword
  }

  /** The profile after `handleSubmitPassword`. */
  function SubmitPassword(p: ProfileData): ProfileData
  {
    if !PasswordsMatch(p) then p
    else p.(currentPassword := "", newPassword := "", confirmPassword := "")
  }

  /** A mismatch leaves the profile as it was; a match clears the three
      password fields and keeps every other field. */
  lemma SubmitPasswordOutcome(p: ProfileData)
    ensures !PasswordsMatch(p) ==> SubmitPassword(p) == p
    ensures PasswordsMatch(p) ==>
              var r := SubmitPassword(p);
              r.currentPassword == "" && r.newPassword == "" && r.confirmPassword == "" &&
              forall f :: f !in {CurrentPassword, NewPassword, ConfirmPassword} ==> Get(r, f) == Get(p, f)
  {
  }

  /** Whatever the current-password field holds, the outcome is the same. */
  lemma SubmitPasswordIgnoresCurrent(p: ProfileData, current: string)
    ensures PasswordsMatch(p.(currentPassword := current)) == PasswordsMatch(p)
    ensures PasswordsMatch(p) ==> SubmitPassword(p.(currentPassword := current)) == SubmitPassword(p)
  {
  }

  /** The page's form state. */
  class Profile {
    var profileData: ProfileData
    var notifications: Notifications

    constructor(user: Option<Session>)
      ensures profileData == InitialProfile(user) && notifications == InitialNotifications
    {
      profileData := InitialProfile(user);
      notifications := InitialNotifications;
    }

    /** `handleProfileChange`, and the bio textarea's own handler. */
    method HandleProfileChange(name: ProfileField, value: string)
      modifies this
      ensures profileData == SetField(old(profileData), name, value)
      ensures notifications == old(notifications)
    {
      profileData := SetField(profileData, name, value);
    }

    method HandleNotificationChange(key: NotificationKey)
      modifies this
      ensures notifications == Flip(old(notifications), key)
      ensures profileData == old(profileData)
    {
      notifications := Flip(notifications, key);
    }

    /** `handleSubmitPassword` (the toasts are left out); `updated` says
        which branch ran. */
    method HandleSubmitPassword() returns (updated: bool)
      modifies this
      ensures updated == PasswordsMatch(old(profileData))
      ensures profileData == SubmitPassword(old(profileData))
      ensures notifications == old(notifications)
    {
      if profileData.newPassword != profileData.confirmPassword {
        return false;
      }
      profileData := profileData.(currentPassword := "", newPassword := "", confirmPassword := "");
      updated := true;
    }
  }
}
