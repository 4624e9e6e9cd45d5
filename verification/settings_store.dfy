/** The persisted settings store: API configuration and user preferences,
    shallow partial merges into either half, and a reset to the defaults that
    were computed once when the store was loaded. The clock and the browser's
    time zone are parameters. */
module SettingsStore {
  import opened Wrappers

  datatype Theme = Light | Dark | System
  datatype Language = En | Es | Fr
  datatype Notifications = Notifications(email: bool, push: bool, desktop: bool)
  datatype Density = Comfortable | Compact

  /** API settings as stored. A field is `None` when it holds `undefined`,
      which a partial update can put there. */
  datatype ApiSettings = ApiSettings(
    baseUrl: Option<string>,
    apiKey: Option<string>,
    timeout: Option<int>,
    retryAttempts: Option<int>)

  datatype UserSettings = UserSettings(
    theme: Option<Theme>,
    language: Option<Language>,
    notifications: Option<Notifications>,
    displayDensity: Option<Density>,
    timezone: Option<string>)

  datatype Settings = Settings(api: ApiSettings, user: UserSettings, lastUpdated: string)

  datatype ApiPatch = ApiPatch(
    baseUrl: Slot<string>,
    apiKey: Slot<string>,
    timeout: Slot<int>,
    retryAttempts: Slot<int>)

  datatype UserPatch = UserPatch(
    theme: Slot<Theme>,
    language: Slot<Language>,
    notifications: Slot<Notifications>,
    displayDensity: Slot<Density>,
    timezone: Slot<string>)

  const NoApiChanges := ApiPatch(Absent, Absent, Absent, Absent)
  const NoUserChanges := UserPatch(Absent, Absent, Absent, Absent, Absent)

  /** `after` holds the value of every key present in the patch and
      `before`'s value for every other key. */
  predicate Overwrites<T(==)>(before: Option<T>, slot: Slot<T>, after: Option<T>) {
    if slot.Present? then after == slot.value else after == before
  }

  predicate ApiMerged(before: ApiSettings, p: ApiPatch, after: ApiSettings) {
    && Overwrites(before.baseUrl, p.baseUrl, after.baseUrl)
    && Overwrites(before.apiKey, p.apiKey, after.apiKey)
    && Overwrites(before.timeout, p.timeout, after.timeout)
    && Overwrites(before.retryAttempts, p.retryAttempts, after.retryAttempts)
  }

  predicate UserMerged(before: UserSettings, p: UserPatch, after: UserSettings) {
    && Overwrites(before.theme, p.theme, after.theme)
    && Overwrites(before.language, p.language, after.language)
    && Overwrites(before.notifications, p.notifications, after.notifications)
    && Overwrites(before.displayDensity, p.displayDensity, after.displayDensity)
    && Overwrites(before.timezone, p.timezone, after.timezone)
  }

  /** `defaultSettings`, built once at module load from the browser's time
      zone and the load time. */
  function DefaultSettings(timezone: string, loadedAt: string): (d: Settings)
    ensures d.api.baseUrl == Some("https://api.example.com") && d.api.apiKey == None
    ensures d.api.timeout == Some(5000) && d.api.retryAttempts == Some(3)
    ensures d.user.theme == Some(System) && d.user.language == Some(En)
    ensures d.user.notifications == Some(Notifications(true, true, true))
    ensures d.user.displayDensity == Some(Comfortable) && d.user.timezone == Some(timezone)
    ensures d.lastUpdated == loadedAt
  {
    Settings(
      ApiSettings(Some("https://api.example.com"), None, Some(5000), Some(3)),
      UserSettings(Some(System), Some(En), Some(Notifications(true, true, true)),
                   Some(Comfortable), Some(timezone)),
      loadedAt)
  }

  /** The store's state together with the defaults it was loaded with. */
  datatype Store = Store(settings: Settings, defaults: Settings)

  /** The store as loaded: its settings are the defaults it keeps for reset. */
  function Load(timezone: string, loadedAt: string): (st: Store)
    ensures st.settings == st.defaults
    ensures st.settings.user.timezone == Some(timezone) && st.settings.lastUpdated == loadedAt
  {
    var d := DefaultSettings(timezone, loadedAt);
    Store(d, d)
  }

  function UpdateApiSettings(st: Store, p: ApiPatch, now: string): (r: Store)
    ensures ApiMerged(st.settings.api, p, r.settings.api)
    ensures r.settings.user == st.settings.user
    ensures r.settings.lastUpdated == now
    ensures r.defaults == st.defaults
  {
    var a := st.settings.api;
    var api := ApiSettings(p.baseUrl.Over(a.baseUrl), p.apiKey.Over(a.apiKey),
                           p.timeout.Over(a.timeout), p.retryAttempts.Over(a.retryAttempts));
    st.(settings := st.settings.(api := api, lastUpdated := now))
  }

  /** The merge is shallow: a present `notifications` replaces all three
      flags at once. */
  function UpdateUserSettings(st: Store, p: UserPatch, now: string): (r: Store)
    ensures UserMerged(st.settings.user, p, r.settings.user)
    ensures r.settings.api == st.settings.api
    ensures r.settings.lastUpdated == now
    ensures r.defaults == st.defaults
  {
    var u := st.settings.user;
    var user := UserSettings(p.theme.Over(u.theme), p.language.Over(u.language),
                             p.notifications.Over(u.notifications),
                             p.displayDensity.Over(u.displayDensity), p.timezone.Over(u.timezone));
    st.(settings := st.settings.(user := user, lastUpdated := now))
  }

  function ResetSettings(st: Store): (r: Store)
    ensures r.settings == st.defaults
    ensures r.defaults == st.defaults
  {
    st.(settings := st.defaults)
  }

  /** An empty patch changes nothing but the timestamp. */
  lemma EmptyPatchesOnlyRestamp(st: Store, now: string)
    ensures UpdateApiSettings(st, NoApiChanges, now).settings == st.settings.(lastUpdated := now)
    ensures UpdateUserSettings(st, NoUserChanges, now).settings == st.settings.(lastUpdated := now)
  {
  }

  /** A key present with `undefined` still overwrites. */
  lemma UndefinedOverwrites(st: Store, now: string)
    requires st.settings.api.timeout.Some?
    ensures UpdateApiSettings(st, NoApiChanges.(timeout := Present(None)), now).settings.api.timeout == None
  {
  }

  /** Setting one notification flag means sending a whole record: the other two
      flags come from the patch, not from the stored record. */
  lemma NotificationsReplacedWhole(st: Store, n: Notifications, now: string)
    ensures UpdateUserSettings(st, NoUserChanges.(notifications := Present(Some(n))), now)
              .settings.user.notifications == Some(n)
  {
  }

  /** Applying the same patch twice is applying it once (at the later time). */
  lemma UpdatesIdempotent(st: Store, p: ApiPatch, q: UserPatch, t1: string, t2: string)
    ensures UpdateApiSettings(UpdateApiSettings(st, p, t1), p, t2) == UpdateApiSettings(st, p, t2)
    ensures UpdateUserSettings(UpdateUserSettings(st, q, t1), q, t2) == UpdateUserSettings(st, q, t2)
  {
  }

  /** The two halves are independent: API and user updates commute up to the
      timestamp, which the later call sets. */
  lemma ApiAndUserUpdatesCommute(st: Store, p: ApiPatch, q: UserPatch, t1: string, t2: string)
    ensures UpdateUserSettings(UpdateApiSettings(st, p, t1), q, t2)
         == UpdateApiSettings(UpdateUserSettings(st, q, t1), p, t2)
  {
  }

  /** One call on the store. */
  datatype Action = ApiUpdated(p: ApiPatch, at: string) | UserUpdated(q: UserPatch, at: string) | ResetCalled

  /** One call: the defaults are never touched, and reset restores them. */
  function Step(st: Store, a: Action): (r: Store)
    ensures r.defaults == st.defaults
    ensures a.ResetCalled? ==> r.settings == st.defaults
    ensures !a.ResetCalled? ==> r.settings.lastUpdated == a.at
  {
    match a
    case ApiUpdated(p, t) => UpdateApiSettings(st, p, t)
    case UserUpdated(q, t) => UpdateUserSettings(st, q, t)
    case ResetCalled => ResetSettings(st)
  }

  function Run(st: Store, actions: seq<Action>): Store
    decreases |actions|
  {
    if actions == [] then st else Run(Step(st, actions[0]), actions[1..])
  }

  /** No call changes the defaults captured at load time. */
  lemma {:induction false} RunKeepsDefaults(st: Store, actions: seq<Action>)
    ensures Run(st, actions).defaults == st.defaults
    decreases |actions|
  {
    if actions != [] {
      RunKeepsDefaults(Step(st, actions[0]), actions[1..]);
    }
  }

  /** After any history, reset yields the settings computed at load time,
      timestamp included, not a fresh timestamp. */
  lemma ResetRestoresLoadedDefaults(timezone: string, loadedAt: string, actions: seq<Action>)
    ensures ResetSettings(Run(Load(timezone, loadedAt), actions)).settings
         == DefaultSettings(timezone, loadedAt)
  {
    RunKeepsDefaults(Load(timezone, loadedAt), actions);
  }
}
