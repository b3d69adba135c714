/**
 * The alert-preferences panel: twenty-one on/off preferences, grouped into four
 * categories (some preferences marked critical), three delivery methods and three
 * mutually exclusive frequency options, and the category shown on the right.
 */
module Alerts {
  import opened Wrappers

  datatype PrefKey =
    | LoginAlerts | PasswordChange | AccountChanges | SuspiciousActivity
    | ProfileUpdates | NewConnections | DataExport | AccountDeletion
    | EmailUpdates | ProductNews | WeeklyDigest | MaintenanceNotices
    | PushNotifications | MobileAlerts | OfflineSync
    | EmailDelivery | SmsDelivery | BrowserNotifications
    | Immediate | Daily | Weekly

  type Preferences = map<PrefKey, bool>

  /** Every key has a value, as in the initial state object. */
  predicate Total(m: Preferences) {
    forall k: PrefKey :: k in m
  }

  /** The initial `preferences` state. */
  const InitialPreferences: Preferences := map[
    LoginAlerts := true, PasswordChange := true, AccountChanges := true, SuspiciousActivity := true,
    ProfileUpdates := false, NewConnections := true, DataExport := true, AccountDeletion := true,
    EmailUpdates := true, ProductNews := false, WeeklyDigest := true, MaintenanceNotices := true,
    PushNotifications := true, MobileAlerts := false, OfflineSync := true,
    EmailDelivery := true, SmsDelivery := false, BrowserNotifications := true,
    Immediate := true, Daily := false, Weekly := false]

  /** One row of a category's list. */
  datatype Preference = Preference(key: PrefKey, title: string, critical: bool)

  datatype Category = Category(id: string, title: string, preferences: seq<Preference>)

  /** `alertCategories`. */
  const Categories: seq<Category> := [
    Category("security", "Security & Privacy", [
      Preference(LoginAlerts, "Login Notifications", true),
      Preference(PasswordChange, "Password Changes", true),
      Preference(AccountChanges, "Account Modifications", true),
      Preference(SuspiciousActivity, "Suspicious Activity", true)]),
    Category("activity", "Account Activity", [
      Preference(ProfileUpdates, "Profile Updates", false),
      Preference(NewConnections, "New Connections", false),
      Preference(DataExport, "Data Export", false),
      Preference(AccountDeletion, "Account Deletion", true)]),
    Category("communication", "Communication", [
      Preference(EmailUpdates, "Email Updates", false),
      Preference(ProductNews, "Product News", false),
      Preference(WeeklyDigest, "Weekly Digest", false),
      Preference(MaintenanceNotices, "Maintenance Notices", false)]),
    Category("mobile", "Mobile & Push", [
      Preference(PushNotifications, "Push Notifications", false),
      Preference(MobileAlerts, "Mobile Alerts", false),
      Preference(OfflineSync, "Offline Sync", false)])]

  /** The keys behind the delivery-method toggles. */
  const DeliveryKeys: set<PrefKey> := {EmailDelivery, SmsDelivery, BrowserNotifications}

  /** The keys behind the frequency radio buttons. */
  const FrequencyKeys: set<PrefKey> := {Immediate, Daily, Weekly}

  /** The preferences flagged critical. */
  const CriticalKeys: set<PrefKey> := {LoginAlerts, PasswordChange, AccountChanges, SuspiciousActivity, AccountDeletion}

  /** A row some category lists. */
  predicate Listed(p: Preference) {
    exists i, j :: 0 <= i < |Categories| && 0 <= j < |Categories[i].preferences| && Categories[i].preferences[j] == p
  }

  /** A row is flagged critical exactly when its key is critical, and its key is neither a
      delivery nor a frequency key. */
  predicate WellFlagged(p: Preference) {
    (p.critical <==> p.key in CriticalKeys) && p.key !in DeliveryKeys && p.key !in FrequencyKeys
  }

  /** Every row of category `i` is well flagged. */
  lemma CategoryWellFlagged(i: nat)
    requires i < |Categories|
    ensures forall j :: 0 <= j < |Categories[i].preferences| ==> WellFlagged(Categories[i].preferences[j])
  {
    if i == 0 {
      assert WellFlagged(Preference(LoginAlerts, "Login Notifications", true));
    } else if i == 1 {
      assert WellFlagged(Preference(AccountDeletion, "Account Deletion", true));
    } else if i == 2 {
      assert WellFlagged(Preference(EmailUpdates, "Email Updates", false));
    } else {
      assert WellFlagged(Preference(PushNotifications, "Push Notifications", false));
    }
  }

  /** The critical flags of the listed rows are exactly the critical keys, and no delivery or
      frequency key is listed in a category. */
  lemma ListedRows(p: Preference)
    requires Listed(p)
    ensures p.critical <==> p.key in CriticalKeys
    ensures p.key !in DeliveryKeys && p.key !in FrequencyKeys
  {
    var i, j :| 0 <= i < |Categories| && 0 <= j < |Categories[i].preferences| && Categories[i].preferences[j] == p;
    CategoryWellFlagged(i);
    assert WellFlagged(Categories[i].preferences[j]);
  }

  /** `currentCategory`: the first category whose id is `id`. */
  function FindCategory(cats: seq<Category>, id: string): (r: Option<nat>)
    ensures r.Some? ==> r.value < |cats| && cats[r.value].id == id
    ensures r.Some? ==> forall j :: 0 <= j < r.value ==> cats[j].id != id
    ensures r.None? <==> forall j :: 0 <= j < |cats| ==> cats[j].id != id
    decreases |cats|
  {
    if cats == [] then None
    else if cats[0].id == id then Some(0)
    else match FindCategory(cats[1..], id)
      case None => None
      case Some(k) => Some(k + 1)
  }

  /** The four category ids are distinct. */
  lemma CategoryIdsDistinct()
    ensures forall i, j :: 0 <= i < j < |Categories| ==> Categories[i].id != Categories[j].id
  {
  }

  /** So the category shown is the only one with the selected id. */
  lemma CurrentCategoryUnique(k: nat)
    requires k < |Categories|
    ensures FindCategory(Categories, Categories[k].id) == Some(k)
  {
    CategoryIdsDistinct();
  }

  /** `handlePreferenceChange(key)`: flip one preference. */
  function Flip(m: Preferences, key: PrefKey): (r: Preferences)
    requires key in m
    ensures r.Keys == m.Keys && r[key] == !m[key]
    ensures forall k :: k in m && k != key ==> r[k] == m[k]
  {
    m[key := !m[key]]
  }

  /** Flipping the same preference twice restores the preferences. */
  lemma FlipTwice(m: Preferences, key: PrefKey)
    requires key in m
    ensures Flip(Flip(m, key), key) == m
  {
  }

  /** The toggle of a row in the shown category: disabled, so without effect, while the row
      is critical and on; otherwise it flips the preference. */
  function ClickToggle(m: Preferences, p: Preference): (r: Preferences)
    requires p.key in m
    ensures p.critical && m[p.key] ==> r == m
    ensures !(p.critical && m[p.key]) ==> r == Flip(m, p.key)
  {
    if p.critical && m[p.key] then m else Flip(m, p.key)
  }

  /** A critical preference that is on stays on whichever row toggle is clicked. */
  lemma CriticalStaysOn(m: Preferences, p: Preference, k: PrefKey)
    requires Listed(p) && Total(m)
    requires k in CriticalKeys && m[k]
    ensures ClickToggle(m, p)[k]
  {
    ListedRows(p);
  }

  /** The radio button for frequency `key`: clear all three, then set `key`. */
  function ChooseFrequency(m: Preferences, key: PrefKey): (r: Preferences)
    requires key in FrequencyKeys
    ensures r.Keys == m.Keys + FrequencyKeys
    ensures r[key] && forall f :: f in FrequencyKeys && f != key ==> !r[f]
    ensures forall k :: k in m && k !in FrequencyKeys ==> r[k] == m[k]
  {
    m[Immediate := false][Daily := false][Weekly := false][key := true]
  }

  /** Exactly one of the frequency options is on. */
  predicate OneFrequency(m: Preferences)
    requires Total(m)
  {
    (m[Immediate] && !m[Daily] && !m[Weekly])
    || (!m[Immediate] && m[Daily] && !m[Weekly])
    || (!m[Immediate] && !m[Daily] && m[Weekly])
  }

  /** The panel's state between renders: total preferences, one frequency, and a category id. */
  predicate Consistent(m: Preferences, selected: string) {
    Total(m) && OneFrequency(m) && exists k :: 0 <= k < |Categories| && Categories[k].id == selected
  }

  lemma InitialConsistent()
    ensures Consistent(InitialPreferences, "security")
  {
    assert Categories[0].id == "security";
    forall k: PrefKey ensures k in InitialPreferences {
      match k
      case LoginAlerts => case PasswordChange => case AccountChanges => case SuspiciousActivity =>
      case ProfileUpdates => case NewConnections => case DataExport => case AccountDeletion =>
      case EmailUpdates => case ProductNews => case WeeklyDigest => case MaintenanceNotices =>
      case PushNotifications => case MobileAlerts => case OfflineSync =>
      case EmailDelivery => case SmsDelivery => case BrowserNotifications =>
      case Immediate => case Daily => case Weekly =>
    }
  }

  /** The panel: its `preferences` and `selectedCategory` state. */
  class AlertSettings {
    var preferences: Preferences
    var selectedCategory: string

    ghost predicate Valid()
      reads this
    {
      Consistent(preferences, selectedCategory)
    }

    constructor ()
      ensures Valid() && preferences == InitialPreferences && selectedCategory == "security"
    {
      preferences := InitialPreferences;
      selectedCategory := "security";
      InitialConsistent();
    }

    /** The category shown: there always is one. */
    function CurrentCategory(): (c: Category)
      requires Valid()
      reads this
      ensures c in Categories && c.id == selectedCategory
    {
      var k := FindCategory(Categories, selectedCategory);
      Categories[k.value]
    }

    /** A click on the toggle of row `p` in the shown category. */
    method ClickPreference(p: Preference)
      requires Valid() && p in CurrentCategory().preferences
      modifies this
      ensures Valid() && selectedCategory == old(selectedCategory)
      ensures preferences == ClickToggle(old(preferences), p)
    {
      var c := CurrentCategory();
      var i :| 0 <= i < |Categories| && Categories[i] == c;
      var j :| 0 <= j < |c.preferences| && c.preferences[j] == p;
      ListedRows(p);
      if !(p.critical && preferences[p.key]) {
        preferences := Flip(preferences, p.key);
      }
    }

    /** A click on a delivery-method toggle: always enabled. */
    method ClickDelivery(key: PrefKey)
      requires Valid() && key in DeliveryKeys
      modifies this
      ensures Valid() && selectedCategory == old(selectedCategory)
      ensures preferences == Flip(old(preferences), key)
    {
      preferences := Flip(preferences, key);
    }

    /** A change of the frequency radio group. */
    method SelectFrequency(key: PrefKey)
      requires Valid() && key in FrequencyKeys
      modifies this
      ensures Valid() && selectedCategory == old(selectedCategory)
      ensures preferences == ChooseFrequency(old(preferences), key)
    {
      preferences := ChooseFrequency(preferences, key);
    }

    /** A click on a category in the navigation list. */
    method SelectCategory(k: nat)
      requires Valid() && k < |Categories|
      modifies this
      ensures Valid() && preferences == old(preferences)
      ensures selectedCategory == Categories[k].id && CurrentCategory() == Categories[k]
    {
      selectedCategory := Categories[k].id;
      CurrentCategoryUnique(k);
    }
  }
}
