/**
 * The plugin's two stored options, `pr_api_url` and `pr_transient_time_hours`,
 * and `pr_get_plugin_settings`, which reads them with their defaults and turns
 * the hours into a transient expiration in seconds.
 */
module Settings {
  import opened Wrappers

  const DefaultApiUrl: string := "https://big-games.shop/wp-json/wc-products/v1/list"
  const DefaultTransientHours: int := 1
  /** WordPress's `HOUR_IN_SECONDS`. */
  const HourInSeconds: int := 3600

  datatype PluginSettings = PluginSettings(apiUrl: string, transientExpiration: int)

  /** The options table, restricted to the plugin's two keys (None: the option was never saved). */
  class OptionStore {
    var apiUrl: Option<string>
    var transientHours: Option<int>

    constructor ()
      ensures apiUrl == None && transientHours == None
    {
      apiUrl, transientHours := None, None;
    }

    function Current(): PluginSettings
      reads this
    {
      GetPluginSettings(apiUrl, transientHours)
    }
  }

  /** `get_option` with its default for each key, then hours times `HOUR_IN_SECONDS`. */
  function GetPluginSettings(apiUrl: Option<string>, transientHours: Option<int>): (s: PluginSettings)
    ensures apiUrl.Some? ==> s.apiUrl == apiUrl.value
    ensures apiUrl.None? ==> s.apiUrl == DefaultApiUrl
    ensures s.transientExpiration % HourInSeconds == 0
    ensures s.transientExpiration / HourInSeconds == transientHours.GetOr(DefaultTransientHours)
  {
    PluginSettings(apiUrl.GetOr(DefaultApiUrl), transientHours.GetOr(DefaultTransientHours) * HourInSeconds)
  }

  /** With nothing saved, the catalog is cached for one hour. */
  lemma DefaultExpirationIsOneHour(apiUrl: Option<string>)
    ensures GetPluginSettings(apiUrl, None).transientExpiration == 3600
  {
  }
}
