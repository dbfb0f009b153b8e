/** The Settings page (src/pages/Settings.tsx): a profile form with a
    password-confirmation check, and preference switches that each report
    their change in a toast. */
module Settings {
  import opened Text

  /** The profile form. */
  datatype Profile = Profile(
    displayName: string,
    email: string,
    currentPassword: string,
    newPassword: string,
    confirmPassword: string)

  /** The profile inputs that have a change handler; the email input is
      disabled and has none. */
  datatype ProfileInput = DisplayNameInput | CurrentPasswordInput | NewPasswordInput | ConfirmPasswordInput

  /** Each input's handler replaces its own field; the email never changes. */
  function EditProfile(p: Profile, input: ProfileInput, v: string): (r: Profile)
    ensures r.email == p.email
    ensures r.displayName == (if input == DisplayNameInput then v else p.displayName)
    ensures r.currentPassword == (if input == CurrentPasswordInput then v else p.currentPassword)
    ensures r.newPassword == (if input == NewPasswordInput then v else p.newPassword)
    ensures r.confirmPassword == (if input == ConfirmPasswordInput then v else p.confirmPassword)
  {
    match input
    case DisplayNameInput => p.(displayName := v)
    case CurrentPasswordInput => p.(currentPassword := v)
    case NewPasswordInput => p.(newPassword := v)
    case ConfirmPasswordInput => p.(confirmPassword := v)
  }

  datatype UpdateOutcome = PasswordsDiffer | ProfileUpdated

  /** `handleProfileUpdate`: the update succeeds when no new password is
      given or when the confirmation repeats it, and fails otherwise. */
  function HandleProfileUpdate(p: Profile): (o: UpdateOutcome)
    ensures o == ProfileUpdated <==> p.newPassword == "" || p.newPassword == p.confirmPassword
  {
    if p.newPassword != "" && p.newPassword != p.confirmPassword then PasswordsDiffer else ProfileUpdated
  }

  /** Whatever the form holds, typing the new password again into the
      confirmation field makes the update succeed. */
  lemma ConfirmingFixesMismatch(p: Profile)
    ensures HandleProfileUpdate(EditProfile(p, ConfirmPasswordInput, p.newPassword)) == ProfileUpdated
  {
  }

  /** The preference switches. */
  datatype Preferences = Preferences(
    darkMode: bool,
    emailNotifications: bool,
    pushNotifications: bool,
    weeklyReports: bool,
    budgetAlerts: bool)

  datatype PreferenceKey = DarkMode | EmailNotifications | PushNotifications | WeeklyReports | BudgetAlerts

  /** The key's name as the source spells it. */
  function KeyName(k: PreferenceKey): string
  {
    match k
    case DarkMode => "darkMode"
    case EmailNotifications => "emailNotifications"
    case PushNotifications => "pushNotifications"
    case WeeklyReports => "weeklyReports"
    case BudgetAlerts => "budgetAlerts"
  }

  function Get(p: Preferences, k: PreferenceKey): bool
  {
    match k
    case DarkMode => p.darkMode
    case EmailNotifications => p.emailNotifications
    case PushNotifications => p.pushNotifications
    case WeeklyReports => p.weeklyReports
    case BudgetAlerts => p.budgetAlerts
  }

  /** `key.replace(/([A-Z])/g, ' $1')`: a space before every capital letter. */
  function SpaceBeforeCapitals(key: string): string
  {
    if key == [] then []
    else (if IsUpper(key[0]) then [' ', key[0]] else [key[0]]) + SpaceBeforeCapitals(key[1..])
  }

  /** Number of capital letters in `s`. */
  function Capitals(s: string): nat
  {
    if s == [] then 0 else (if IsUpper(s[0]) then 1 else 0) + Capitals(s[1..])
  }

  /** The toast's name for a key: a space before each capital, then all lower
      case. The label has no capitals and is one character longer per
      capital of the key. */
  function KeyToLabel(key: string): (words: string)
    ensures |words| == |key| + Capitals(key)
    ensures forall i :: 0 <= i < |words| ==> !IsUpper(words[i])
  {
    SpacedLength(key);
    Lower(SpaceBeforeCapitals(key))
  }

  lemma {:induction false} SpacedLength(key: string)
    ensures |SpaceBeforeCapitals(key)| == |key| + Capitals(key)
  {
    if key != [] {
      SpacedLength(key[1..]);
    }
  }

  /** The inverse reading of a label: drop each space and capitalise the
      letter after it. */
  function LabelToKey(words: string): string
  {
    if words == [] then []
    else if words[0] == ' ' && |words| >= 2 then [UpperChar(words[1])] + LabelToKey(words[2..])
    else [words[0]] + LabelToKey(words[1..])
  }

  /** For a key with no spaces (every camelCase key), the label determines
      the key: reading it back gives the key again. */
  lemma {:induction false} LabelRoundTrip(key: string)
    requires forall i :: 0 <= i < |key| ==> key[i] != ' '
    ensures LabelToKey(KeyToLabel(key)) == key
  {
    if key != [] {
      LabelRoundTrip(key[1..]);
      var rest := Lower(SpaceBeforeCapitals(key[1..]));
      if IsUpper(key[0]) {
        assert SpaceBeforeCapitals(key) == [' ', key[0]] + SpaceBeforeCapitals(key[1..]);
        assert KeyToLabel(key) == [' ', LowerChar(key[0])] + rest;
        UpperOfLower(key[0]);
      } else {
        assert SpaceBeforeCapitals(key) == [key[0]] + SpaceBeforeCapitals(key[1..]);
        assert KeyToLabel(key) == [key[0]] + rest;
      }
    }
  }

  /** A switch name of the source comes out as plain words. */
  lemma LabelExample()
    ensures KeyToLabel("darkMode") == "dark mode"
  {
    DarkModeSpaced();
    DarkModeLowered();
  }

  lemma DarkModeSpaced()
    ensures SpaceBeforeCapitals("darkMode") == "dark Mode"
  {
    ModeSpaced();
    assert SpaceBeforeCapitals("kMode") == "k Mode";
    assert SpaceBeforeCapitals("rkMode") == "rk Mode";
    assert SpaceBeforeCapitals("arkMode") == "ark Mode";
  }

  lemma ModeSpaced()
    ensures SpaceBeforeCapitals("Mode") == " Mode"
  {
    assert SpaceBeforeCapitals("e") == "e";
    assert SpaceBeforeCapitals("de") == "de";
    assert SpaceBeforeCapitals("ode") == "ode";
  }

  lemma DarkModeLowered()
    ensures Lower("dark Mode") == "dark mode"
  {
  }

  /** The outcome of flipping a switch: the new preferences and the toast text. */
  datatype PreferenceChange = PreferenceChange(preferences: Preferences, message: string)

  /** `handlePreferenceChange(k, v)`: preference `k` takes the value `v`,
      every other preference keeps its value, and the toast names the key
      and says 'enabled' exactly when `v` is true. */
  function HandlePreferenceChange(p: Preferences, k: PreferenceKey, v: bool): (r: PreferenceChange)
    ensures Get(r.preferences, k) == v
    ensures forall j :: j != k ==> Get(r.preferences, j) == Get(p, j)
    ensures r.message == KeyToLabel(KeyName(k)) + " has been " + (if v then "enabled" else "disabled") + "."
  {
    var q := match k
      case DarkMode => p.(darkMode := v)
      case EmailNotifications => p.(emailNotifications := v)
      case PushNotifications => p.(pushNotifications := v)
      case WeeklyReports => p.(weeklyReports := v)
      case BudgetAlerts => p.(budgetAlerts := v);
    PreferenceChange(q, KeyToLabel(KeyName(k)) + " has been " + (if v then "enabled" else "disabled") + ".")
  }

  /** Setting a preference to the value it already has changes nothing. */
  lemma PreferenceChangeIdempotent(p: Preferences, k: PreferenceKey)
    ensures HandlePreferenceChange(p, k, Get(p, k)).preferences == p
  {
  }
}
