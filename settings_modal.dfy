/**
 * The settings dialog's form state: four boolean flags and one free-text
 * privacy field. A click on a row toggles one flag; the privacy select
 * overwrites the privacy field. Each update replaces the whole record with
 * a copy that differs in one field.
 */
module SettingsModal {

  datatype Settings = Settings(
    darkMode: bool,
    notifications: bool,
    emailNotifications: bool,
    soundEnabled: bool,
    privacy: string)

  /** The record's field names. */
  datatype Key = DarkMode | Notifications | EmailNotifications | SoundEnabled | Privacy

  /** What a field holds: a boolean or a string. */
  datatype Value = Bool(b: bool) | Text(s: string)

  /** The state the dialog is mounted with. */
  const InitialSettings := Settings(
    darkMode := true,
    notifications := true,
    emailNotifications := false,
    soundEnabled := true,
    privacy := "private")

  /** `settings[key]`. Only `privacy` holds a string. */
  function Get(s: Settings, k: Key): (v: Value)
    ensures v.Bool? <==> k != Privacy
  {
    match k
    case DarkMode => Bool(s.darkMode)
    case Notifications => Bool(s.notifications)
    case EmailNotifications => Bool(s.emailNotifications)
    case SoundEnabled => Bool(s.soundEnabled)
    case Privacy => Text(s.privacy)
  }

  /** Two records that agree on every key are the same record. */
  lemma Extensional(s: Settings, t: Settings)
    requires forall k :: Get(s, k) == Get(t, k)
    ensures s == t
  {
    assert Get(s, DarkMode) == Get(t, DarkMode);
    assert Get(s, Notifications) == Get(t, Notifications);
    assert Get(s, EmailNotifications) == Get(t, EmailNotifications);
    assert Get(s, SoundEnabled) == Get(t, SoundEnabled);
    assert Get(s, Privacy) == Get(t, Privacy);
  }

  /** `{...s, [k]: v}` for a value of the field's own type. */
  function Put(s: Settings, k: Key, v: Value): (r: Settings)
    requires v.Bool? <==> k != Privacy
    ensures Get(r, k) == v
    ensures forall k' :: k' != k ==> Get(r, k') == Get(s, k')
  {
    match k
    case DarkMode => s.(darkMode := v.b)
    case Notifications => s.(notifications := v.b)
    case EmailNotifications => s.(emailNotifications := v.b)
    case SoundEnabled => s.(soundEnabled := v.b)
    case Privacy => s.(privacy := v.s)
  }

  /** `toggleSetting(k)`: negate the field if it holds a boolean, otherwise write back what it holds. */
  function Toggle(s: Settings, k: Key): (r: Settings)
    ensures Get(s, k).Bool? ==> Get(r, k) == Bool(!Get(s, k).b)
    ensures forall k' :: k' != k ==> Get(r, k') == Get(s, k')
  {
    var v := Get(s, k);
    Put(s, k, if v.Bool? then Bool(!v.b) else v)
  }

  /** Toggling the string field changes nothing at all. */
  lemma ToggleTextIsIdentity(s: Settings)
    ensures Toggle(s, Privacy) == s
  {
    Extensional(Toggle(s, Privacy), s);
  }

  /** Toggling the same field twice gives back the record. */
  lemma ToggleTwice(s: Settings, k: Key)
    ensures Toggle(Toggle(s, k), k) == s
  {
    Extensional(Toggle(Toggle(s, k), k), s);
  }

  /** Toggles of different fields commute. */
  lemma ToggleCommutes(s: Settings, k: Key, k': Key)
    ensures Toggle(Toggle(s, k), k') == Toggle(Toggle(s, k'), k)
  {
    Extensional(Toggle(Toggle(s, k), k'), Toggle(Toggle(s, k'), k));
  }

  /** `handlePrivacyChange(v)`: the privacy field becomes `v`, whatever `v` is. */
  function ChangePrivacy(s: Settings, value: string): (r: Settings)
    ensures r.privacy == value
    ensures forall k :: k != Privacy ==> Get(r, k) == Get(s, k)
  {
    Put(s, Privacy, Text(value))
  }

  // ---------------------------------------------------------------------
  // What the dialog lets a user do

  /** The three options of the privacy select. */
  datatype PrivacyOption = Private | FriendsOnly | Public

  function OptionValue(o: PrivacyOption): (v: string)
    ensures v in {"private", "friends", "public"}
  {
    match o
    case Private => "private"
    case FriendsOnly => "friends"
    case Public => "public"
  }

  /** Each option of the select carries its own value. */
  lemma OptionValuesDistinct(o: PrivacyOption, o': PrivacyOption)
    ensures OptionValue(o) == OptionValue(o') <==> o == o'
  {
  }

  /** The rows with a click handler, and the select. The dark-mode row has no handler. */
  datatype Interaction =
    | ClickNotifications
    | ClickEmailNotifications
    | ClickSound
    | SelectPrivacy(option: PrivacyOption)

  /**
   * What one interaction does to the record: each row click toggles its own
   * flag, a selection sets privacy. No interaction reaches dark mode.
   */
  function Handle(s: Settings, a: Interaction): (r: Settings)
    ensures r.darkMode == s.darkMode
    ensures a.SelectPrivacy? ==> r.privacy == OptionValue(a.option)
    ensures !a.SelectPrivacy? ==> r.privacy == s.privacy
    ensures a == ClickNotifications ==> r == Toggle(s, Notifications)
    ensures a == ClickEmailNotifications ==> r == Toggle(s, EmailNotifications)
    ensures a == ClickSound ==> r == Toggle(s, SoundEnabled)
    ensures a.SelectPrivacy? ==> r == ChangePrivacy(s, OptionValue(a.option))
  {
    match a
    case ClickNotifications => Toggle(s, Notifications)
    case ClickEmailNotifications => Toggle(s, EmailNotifications)
    case ClickSound => Toggle(s, SoundEnabled)
    case SelectPrivacy(o) => ChangePrivacy(s, OptionValue(o))
  }

  function Replay(s: Settings, actions: seq<Interaction>): Settings
    decreases |actions|
  {
    if actions == [] then s else Replay(Handle(s, actions[0]), actions[1..])
  }

  /** Dark mode is on and privacy is one of the select's values. */
  predicate Consistent(s: Settings) {
    s.darkMode && s.privacy in {"private", "friends", "public"}
  }

  /** Every interaction the dialog offers keeps a consistent record consistent. */
  lemma {:induction false} ReplayKeepsConsistent(s: Settings, actions: seq<Interaction>)
    requires Consistent(s)
    ensures Consistent(Replay(s, actions))
    decreases |actions|
  {
    if actions != [] {
      var a := actions[0];
      assert Consistent(Handle(s, a)) by {
        assert Get(Handle(s, a), DarkMode) == Get(s, DarkMode);
      }
      ReplayKeepsConsistent(Handle(s, a), actions[1..]);
    }
  }

  /** Whatever the user clicks or selects, dark mode stays on and privacy stays one of the options. */
  lemma ReachableIsConsistent(actions: seq<Interaction>)
    ensures Replay(InitialSettings, actions).darkMode
    ensures Replay(InitialSettings, actions).privacy in {"private", "friends", "public"}
  {
    ReplayKeepsConsistent(InitialSettings, actions);
  }

  // ---------------------------------------------------------------------
  // The component's state cell

  class SettingsDialog {
    var settings: Settings

    constructor ()
      ensures settings == InitialSettings
      ensures settings.darkMode && settings.notifications && !settings.emailNotifications
      ensures settings.soundEnabled && settings.privacy == "private"
    {
      settings := InitialSettings;
    }

    method ToggleSetting(k: Key)
      modifies this
      ensures settings == Toggle(old(settings), k)
    {
      settings := Toggle(settings, k);
    }

    method HandlePrivacyChange(value: string)
      modifies this
      ensures settings == ChangePrivacy(old(settings), value)
    {
      settings := ChangePrivacy(settings, value);
    }
  }
}
