/** The start dialog: choosing the platform and the live URL, and saving the
    URL in the configuration. The configuration file is a string-to-string map;
    reading and writing it is outside this model. */
module StartDialog {
  import opened Wrappers
  import opened Platforms

  /** Python's `dict.get(key, default)`. */
  function Get(config: map<string, string>, key: string, default: string): string {
    if key in config then config[key] else default
  }

  /** The URL text the dialog first shows: the saved Bilibili URL if it is
      non-empty, else the saved YouTube URL if that is non-empty, else the
      field's empty text. */
  function InitialUrl(config: map<string, string>): (r: string)
    ensures r == "" || r == Get(config, ConfigKey(Bili), "") || r == Get(config, ConfigKey(Yt), "")
    ensures r == "" <==> Get(config, ConfigKey(Bili), "") == "" && Get(config, ConfigKey(Yt), "") == ""
    ensures Get(config, ConfigKey(Bili), "") != "" ==> r == config[ConfigKey(Bili)]
  {
    var bili := Get(config, ConfigKey(Bili), "");
    var yt := Get(config, ConfigKey(Yt), "");
    if bili != "" then bili else if yt != "" then yt else ""
  }

  /** `_update_url_preview`: with "use saved URL" ticked, the field shows the
      saved URL of the selected platform (or nothing); otherwise it keeps
      whatever it holds. */
  function PreviewText(config: map<string, string>, bili: bool, useSaved: bool, current: string): (r: string)
    ensures var key := ConfigKey(if bili then Bili else Yt);
      useSaved ==> r == (if key in config then config[key] else "")
    ensures !useSaved ==> r == current
  {
    var default := if bili then Get(config, ConfigKey(Bili), "") else Get(config, ConfigKey(Yt), "");
    if useSaved then default else current
  }

  /** When the dialog opens, the preview replaces the first fill of the
      field: it shows the saved Bilibili URL, and a saved YouTube URL shown
      by the first fill (no Bilibili URL saved) is replaced by "". */
  lemma InitialFillOverridden(config: map<string, string>)
    ensures PreviewText(config, true, true, InitialUrl(config)) == Get(config, ConfigKey(Bili), "")
    ensures Get(config, ConfigKey(Bili), "") == "" && Get(config, ConfigKey(Yt), "") != "" ==>
      InitialUrl(config) == config[ConfigKey(Yt)] && PreviewText(config, true, true, InitialUrl(config)) == ""
  {
  }

  /** The preview does not depend on what the field held before when the
      saved URL is used, so applying it twice is applying it once. */
  lemma PreviewIdempotent(config: map<string, string>, bili: bool, useSaved: bool, current: string)
    ensures PreviewText(config, bili, useSaved, PreviewText(config, bili, useSaved, current))
      == PreviewText(config, bili, useSaved, current)
  {
  }

  /** What pressing OK decides: the platform, the URL, the new configuration
      and whether the dialog is accepted. */
  datatype AcceptOutcome = AcceptOutcome(platform: Platform, url: string, config: map<string, string>, accepted: bool)

  /** `on_accept`. The platform and URL are taken from the widgets first; an
      empty URL then stops the dialog from closing. Otherwise, when "save" is
      ticked, only the chosen platform's key is set to the URL. */
  function Accept(config: map<string, string>, bili: bool, save: bool, text: string): (r: AcceptOutcome)
    ensures r.platform == Bili <==> bili
    ensures r.url == text
    ensures r.accepted <==> text != ""
    ensures !(r.accepted && save) ==> r.config == config
    ensures r.accepted && save ==>
      && r.config.Keys == config.Keys + {ConfigKey(r.platform)}
      && r.config[ConfigKey(r.platform)] == text
      && forall k :: k in config && k != ConfigKey(r.platform) ==> r.config[k] == config[k]
  {
    var platform := if bili then Bili else Yt;
    if text == "" then AcceptOutcome(platform, text, config, false)
    else if save then AcceptOutcome(platform, text, config[ConfigKey(platform) := text], true)
    else AcceptOutcome(platform, text, config, true)
  }

  /** Saving whatever URL the preview filled in from the configuration
      leaves the configuration as it was (an empty one is rejected). */
  lemma SavingPreviewedUrlKeepsConfig(config: map<string, string>, bili: bool, current: string)
    ensures Accept(config, bili, true, PreviewText(config, bili, true, current)).config == config
  {
    var key := ConfigKey(if bili then Bili else Yt);
    if PreviewText(config, bili, true, current) != "" {
      assert key in config;
      assert config[key := config[key]] == config;
    }
  }

  /** The dialog's state: the configuration it edits, the widgets' states
      and what `on_accept` records. */
  class Dialog {
    var config: map<string, string>
    /** `self.platform`: "" until OK is pressed. */
    var platform: Option<Platform>
    var url: string
    var biliChecked: bool
    var useSavedChecked: bool
    var saveToConfigChecked: bool
    var urlText: string
    var accepted: bool

    /** The dialog as it opens: Bilibili selected, "use saved URL" ticked,
        "save" not ticked. The field is filled from the saved URLs and then
        refreshed by the preview, so it shows the saved Bilibili URL or is
        empty; the YouTube fallback of the first fill never survives. */
    constructor (config: map<string, string>)
      ensures this.config == config && platform == None && url == "" && !accepted
      ensures biliChecked && useSavedChecked && !saveToConfigChecked
      ensures urlText == Get(config, ConfigKey(Bili), "")
    {
      this.config := config;
      platform := None;
      url := "";
      biliChecked := true;
      useSavedChecked := true;
      saveToConfigChecked := false;
      urlText := InitialUrl(config);
      accepted := false;
      new;
      UpdateUrlPreview();
    }

    /** `_update_url_preview`. */
    method UpdateUrlPreview()
      modifies this`urlText
      ensures urlText == PreviewText(config, biliChecked, useSavedChecked, old(urlText))
    {
      var default: string;
      if biliChecked {
        default := Get(config, "bili_live_url", "");
      } else {
        default := Get(config, "yt_live_url", "");
      }
      if useSavedChecked {
        urlText := default;
      }
    }

    /** Selecting a platform's radio button. The Bilibili button's `toggled`
        signal, and with it `on_platform_changed`, fires only when its state
        changes. */
    method SelectPlatform(bili: bool)
      modifies this`biliChecked, this`urlText
      ensures biliChecked == bili
      ensures urlText == if bili == old(biliChecked) then old(urlText)
                         else PreviewText(config, bili, useSavedChecked, old(urlText))
    {
      if bili != biliChecked {
        biliChecked := bili;
        UpdateUrlPreview();
      }
    }

    /** `on_accept`. */
    method OnAccept()
      modifies this`platform, this`url, this`config, this`accepted
      ensures var r := Accept(old(config), biliChecked, saveToConfigChecked, urlText);
        platform == Some(r.platform) && url == r.url && config == r.config &&
        accepted == (old(accepted) || r.accepted)
    {
      platform := Some(if biliChecked then Bili else Yt);
      url := urlText;
      if url == "" {
        return;
      }
      if saveToConfigChecked {
        var key := if platform.value == Bili then "bili_live_url" else "yt_live_url";
        config := config[key := url];
      }
      accepted := true;
    }
  }
}
