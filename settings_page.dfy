/**
 * The processing half of `pr_render_settings_page`: a submission carrying a
 * valid `pr_save_settings` nonce stores the API URL and the cache hours, and,
 * when `pr_flush_cache` was sent, deletes the cached catalog.
 *
 * As written, the whole block runs only when the POST holds `pr_save_settings`,
 * the name of the "Save Settings" submit button. A browser sends only the name
 * of the submit button that was pressed, so pressing "Flush Cache" sends
 * `pr_flush_cache` without `pr_save_settings` and nothing happens.
 * `HandleAsWritten` and `ProcessSettingsForm` model the code as written;
 * `Handle` and `ProcessSettingsFormCorrected` run the block for either button.
 */
module SettingsPage {
  import opened Wrappers
  import opened WordPress
  import opened Actions
  import Php
  import Settings
  import Cache

  /** The POST fields the processing reads. */
  datatype SettingsPost = SettingsPost(
    saveSettings: bool,          // isset( $_POST['pr_save_settings'] )
    flushCache: bool,            // isset( $_POST['pr_flush_cache'] )
    nonce: Option<string>,       // $_POST['pr_settings_nonce']
    apiUrl: Option<string>,      // $_POST['pr_api_url']
    transientHours: Option<int>) // intval( $_POST['pr_transient_time_hours'] )

  /** The form's two submit buttons. */
  datatype SubmitButton = SaveSettingsButton | FlushCacheButton

  /** What submitting the settings form sends: its nonce, both inputs and, of the two submit
      buttons, only the name of the one pressed. */
  function FormSubmission(button: SubmitButton, nonce: string, apiUrl: string, transientHours: int): (p: SettingsPost)
    ensures p.saveSettings <==> button == SaveSettingsButton
    ensures p.flushCache <==> button == FlushCacheButton
    ensures p.nonce == Some(nonce) && p.apiUrl == Some(apiUrl) && p.transientHours == Some(transientHours)
  {
    SettingsPost(button == SaveSettingsButton, button == FlushCacheButton, Some(nonce), Some(apiUrl), Some(transientHours))
  }

  datatype Notice = NonceFailedNotice | CacheFlushedNotice | SettingsSavedNotice

  /** What one submission does: the notices shown, the option values stored (URL, hours), and
      whether the cached catalog is deleted. */
  datatype SettingsEffect = SettingsEffect(notices: seq<Notice>, saved: Option<(string, nat)>, flush: bool)

  predicate NonceValid(post: SettingsPost, host: Host) {
    post.nonce.Some? && host.verifyNonce(post.nonce.value, SettingsNonceAction)
  }

  /** `esc_url_raw` of the URL field or "", and `absint` of the hours field or 1. */
  function SavedValues(post: SettingsPost, host: Host): (string, nat) {
    (if post.apiUrl.Some? then host.escUrlRaw(post.apiUrl.value) else "",
     if post.transientHours.Some? then Php.Absint(post.transientHours.value) else 1)
  }

  /** The block once it runs: the nonce check, then save, flush and the notices. */
  function Process(post: SettingsPost, host: Host): SettingsEffect {
    if !NonceValid(post, host) then SettingsEffect([NonceFailedNotice], None, false)
    else SettingsEffect((if post.flushCache then [CacheFlushedNotice] else []) + [SettingsSavedNotice],
                        Some(SavedValues(post, host)), post.flushCache)
  }

  /** As written: the block runs only when `pr_save_settings` was sent. */
  function HandleAsWritten(post: SettingsPost, host: Host): (e: SettingsEffect)
    ensures e.flush <==> post.saveSettings && post.flushCache && NonceValid(post, host)
    ensures e.saved.Some? <==> post.saveSettings && NonceValid(post, host)
    ensures e.saved.Some? ==> e.saved.value == SavedValues(post, host) && |e.notices| > 0 && e.notices[|e.notices| - 1] == SettingsSavedNotice
    ensures post.saveSettings && !NonceValid(post, host) ==> e.notices == [NonceFailedNotice]
    ensures !post.saveSettings ==> e == SettingsEffect([], None, false)
  {
    if post.saveSettings then Process(post, host) else SettingsEffect([], None, false)
  }

  /** As written, pressing "Flush Cache" does nothing at all. */
  lemma FlushButtonIgnoredAsWritten(nonce: string, apiUrl: string, transientHours: int, host: Host)
    ensures HandleAsWritten(FormSubmission(FlushCacheButton, nonce, apiUrl, transientHours), host) ==
            SettingsEffect([], None, false)
  {
  }

  /** As written, no submission of the form ever deletes the cached catalog. */
  lemma FormNeverFlushesAsWritten(button: SubmitButton, nonce: string, apiUrl: string, transientHours: int, host: Host)
    ensures !HandleAsWritten(FormSubmission(button, nonce, apiUrl, transientHours), host).flush
  {
  }

  /** Corrected: the block runs when either submit button was pressed. */
  function Handle(post: SettingsPost, host: Host): (e: SettingsEffect)
    ensures e.flush <==> post.flushCache && NonceValid(post, host)
    ensures e.saved.Some? <==> (post.saveSettings || post.flushCache) && NonceValid(post, host)
    ensures e.saved.Some? ==> e.saved.value == SavedValues(post, host) && |e.notices| > 0 && e.notices[|e.notices| - 1] == SettingsSavedNotice
    ensures (post.saveSettings || post.flushCache) && !NonceValid(post, host) ==> e.notices == [NonceFailedNotice]
  {
    if post.saveSettings || post.flushCache then Process(post, host) else SettingsEffect([], None, false)
  }

  /** With the correction, pressing "Flush Cache" with a valid nonce deletes the cached catalog
      and also saves the two fields. */
  lemma FlushButtonFlushes(nonce: string, apiUrl: string, transientHours: int, host: Host)
    requires host.verifyNonce(nonce, SettingsNonceAction)
    ensures var e := Handle(FormSubmission(FlushCacheButton, nonce, apiUrl, transientHours), host);
            e.flush && e.notices == [CacheFlushedNotice, SettingsSavedNotice] &&
            e.saved == Some((host.escUrlRaw(apiUrl), Php.Absint(transientHours)))
  {
  }

  /** The correction changes nothing for the "Save Settings" button. */
  lemma SaveButtonUnchanged(nonce: string, apiUrl: string, transientHours: int, host: Host)
    ensures var p := FormSubmission(SaveSettingsButton, nonce, apiUrl, transientHours);
            Handle(p, host) == HandleAsWritten(p, host) && !Handle(p, host).flush
  {
  }

  /** Saved values read back through `pr_get_plugin_settings`: the URL as stored, and a
      non-negative whole number of hours as the cache expiration. */
  lemma SavedSettingsReadBack(post: SettingsPost, host: Host)
    requires Handle(post, host).saved.Some?
    ensures var (url, hours) := Handle(post, host).saved.value;
            var s := Settings.GetPluginSettings(Some(url), Some(hours));
            s.apiUrl == url && s.transientExpiration == hours * Settings.HourInSeconds && s.transientExpiration >= 0
  {
  }

  /** The block of lines 329-342 once it runs, applied to the option and transient stores. */
  method ProcessBlock(options: Settings.OptionStore, cache: Cache.TransientStore, post: SettingsPost, host: Host)
    returns (notices: seq<Notice>)
    modifies options, cache
    ensures var e := Process(post, host);
            notices == e.notices &&
            (if e.saved.Some? then options.apiUrl == Some(e.saved.value.0) && options.transientHours == Some(e.saved.value.1)
             else options.apiUrl == old(options.apiUrl) && options.transientHours == old(options.transientHours)) &&
            cache.apiData == (if e.flush then None else old(cache.apiData))
  {
    notices := [];
    if post.nonce.None? || !host.verifyNonce(post.nonce.value, SettingsNonceAction) {
      notices := [NonceFailedNotice];
    } else {
      var apiUrl := if post.apiUrl.Some? then host.escUrlRaw(post.apiUrl.value) else "";
      var transientHours := if post.transientHours.Some? then Php.Absint(post.transientHours.value) else 1;
      options.apiUrl := Some(apiUrl);
      options.transientHours := Some(transientHours);
      if post.flushCache {
        cache.Delete();
        notices := notices + [CacheFlushedNotice];
      }
      notices := notices + [SettingsSavedNotice];
    }
  }

  /** The settings-form processing as written, applied to the option and transient stores. */
  method ProcessSettingsForm(options: Settings.OptionStore, cache: Cache.TransientStore, post: SettingsPost, host: Host)
    returns (notices: seq<Notice>)
    modifies options, cache
    ensures var e := HandleAsWritten(post, host);
            notices == e.notices &&
            (if e.saved.Some? then options.apiUrl == Some(e.saved.value.0) && options.transientHours == Some(e.saved.value.1)
             else options.apiUrl == old(options.apiUrl) && options.transientHours == old(options.transientHours)) &&
            cache.apiData == (if e.flush then None else old(cache.apiData))
  {
    notices := [];
    if post.saveSettings {
      notices := ProcessBlock(options, cache, post, host);
    }
  }

  /** The corrected processing, which runs the block for either submit button. */
  method ProcessSettingsFormCorrected(options: Settings.OptionStore, cache: Cache.TransientStore, post: SettingsPost, host: Host)
    returns (notices: seq<Notice>)
    modifies options, cache
    ensures var e := Handle(post, host);
            notices == e.notices &&
            (if e.saved.Some? then options.apiUrl == Some(e.saved.value.0) && options.transientHours == Some(e.saved.value.1)
             else options.apiUrl == old(options.apiUrl) && options.transientHours == old(options.transientHours)) &&
            cache.apiData == (if e.flush then None else old(cache.apiData))
  {
    notices := [];
    if post.saveSettings || post.flushCache {
      notices := ProcessBlock(options, cache, post, host);
    }
  }
}
