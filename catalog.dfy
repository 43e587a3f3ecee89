/** What the core reads from the application catalog (ApplicationDescription and
    ApplicationManager are outside the model): descriptor records and the two
    lookups, pending-install first and installed second. */
module Catalog {
  import opened Common

  /** ApplicationDescription::Type; values the core never distinguishes are `OtherType`. */
  datatype AppType = Web | Native | PDK | Qt | QML | SysmgrBuiltin | OtherType(code: int)

  /** WindowType::Type; the kinds the core never distinguishes are `OtherWindow`. */
  datatype WindowType =
    | Card | Launcher | Dashboard | PopupAlert | BannerAlert | StatusBar
    | OtherWindow(code: int)

  datatype AppDescription = AppDescription(
    id: string,
    appType: AppType,
    ready: bool,                      // status() == Status_Ready
    canExecute: bool,                 // no execution lock
    securityChecksVerified: bool,
    entryPoint: string,
    menuName: string,
    defaultLaunchPointTitle: Option<string>)

  datatype Catalog = Catalog(
    pending: map<string, AppDescription>,
    installed: map<string, AppDescription>)

  /** getAppById */
  function InstalledApp(c: Catalog, id: string): (r: Option<AppDescription>)
    ensures r.Some? <==> id in c.installed
    ensures r.Some? ==> r.value == c.installed[id]
  {
    if id in c.installed then Some(c.installed[id]) else None
  }

  /** getPendingAppById, falling back to getAppById. */
  function FindApp(c: Catalog, id: string): (r: Option<AppDescription>)
    ensures r.Some? <==> (id in c.pending || id in c.installed)
    ensures id in c.pending ==> r == Some(c.pending[id])
    ensures id !in c.pending ==> r == InstalledApp(c, id)
  {
    if id in c.pending then Some(c.pending[id]) else InstalledApp(c, id)
  }
}
