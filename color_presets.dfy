/**
  ColorPreset: a named set of the twelve colours, copied from and applied to
  a Settings object field by field. A `null` Name is `None`.
*/
module ColorPresets {
  import opened Outcomes
  import opened AppSettings

  class ColorPreset {
    var name: Option<string>

    var searchBoxBorderColor: string
    var searchBoxTextColor: string
    var searchBoxBackgroundColor: string
    var resultsBoxBorderColor: string
    var resultsBoxTextColor: string
    var resultsBoxBackgroundColor: string
    var windowBorderColor: string
    var windowBackgroundColor: string
    var highlightColor: string
    var notificationBackgroundColor: string
    var notificationBorderColor: string
    var notificationTextColor: string

    /** The twelve colour fields. */
    function Colors(): Palette
      reads this
    {
      Palette(searchBoxBorderColor, searchBoxTextColor, searchBoxBackgroundColor,
              resultsBoxBorderColor, resultsBoxTextColor, resultsBoxBackgroundColor,
              windowBorderColor, windowBackgroundColor, highlightColor,
              notificationBackgroundColor, notificationBorderColor, notificationTextColor)
    }

    /** A new preset: an empty name and the default palette. */
    constructor ()
      ensures name == Some("")
      ensures IsEmpty()
      ensures Colors() == DefaultPalette
    {
      name := Some("");
      searchBoxBorderColor := "#FFFFFFFF";
      searchBoxTextColor := "#FFF8F8F2";
      searchBoxBackgroundColor := "#FF57584F";
      resultsBoxBorderColor := "#FF49483E";
      resultsBoxTextColor := "#FFF8F8F2";
      resultsBoxBackgroundColor := "#FF35362F";
      windowBorderColor := "#FF49483E";
      windowBackgroundColor := "#FF272822";
      highlightColor := "#FFA6E22E";
      notificationBackgroundColor := "#FF57584F";
      notificationBorderColor := "#FF49483E";
      notificationTextColor := "#FFF8F8F2";
    }

    /** `string.IsNullOrEmpty(Name)`. */
    predicate IsEmpty()
      reads this
    {
      name.None? || name.value == ""
    }

    /** ColorPreset.CopyFrom: takes the settings' twelve colours; the name stays. */
    method CopyFrom(settings: Settings)
      modifies this
      ensures Colors() == settings.Colors()
      ensures name == old(name)
    {
      var c := settings.Colors();
      searchBoxBorderColor := c.searchBoxBorder;
      searchBoxTextColor := c.searchBoxText;
      searchBoxBackgroundColor := c.searchBoxBackground;
      resultsBoxBorderColor := c.resultsBoxBorder;
      resultsBoxTextColor := c.resultsBoxText;
      resultsBoxBackgroundColor := c.resultsBoxBackground;
      windowBorderColor := c.windowBorder;
      windowBackgroundColor := c.windowBackground;
      highlightColor := c.highlight;
      notificationBackgroundColor := c.notificationBackground;
      notificationBorderColor := c.notificationBorder;
      notificationTextColor := c.notificationText;
      assert Colors() == c;
    }

    /** ColorPreset.ApplyTo: writes the twelve colours into the settings; no other setting changes. */
    method ApplyTo(settings: Settings)
      modifies settings
      ensures settings.Colors() == Colors()
      ensures settings.Others() == old(settings.Others())
    {
      var c := Colors();
      settings.searchBoxBorderColor := c.searchBoxBorder;
      settings.searchBoxTextColor := c.searchBoxText;
      settings.searchBoxBackgroundColor := c.searchBoxBackground;
      settings.resultsBoxBorderColor := c.resultsBoxBorder;
      settings.resultsBoxTextColor := c.resultsBoxText;
      settings.resultsBoxBackgroundColor := c.resultsBoxBackground;
      settings.windowBorderColor := c.windowBorder;
      settings.windowBackgroundColor := c.windowBackground;
      settings.highlightColor := c.highlight;
      settings.notificationBackgroundColor := c.notificationBackground;
      settings.notificationBorderColor := c.notificationBorder;
      settings.notificationTextColor := c.notificationText;
      assert settings.Colors() == c;
    }
  }

  /**
    Saving one settings object's colours into a preset and applying the preset
    to another gives the preset and the second object the first's colours and
    keeps the second's other settings and the preset's name.
  */
  method Transfer(preset: ColorPreset, source: Settings, target: Settings)
    modifies preset, target
    ensures target.Colors() == old(source.Colors())
    ensures target.Others() == old(target.Others())
    ensures preset.Colors() == old(source.Colors())
    ensures preset.name == old(preset.name)
  {
    preset.CopyFrom(source);
    preset.ApplyTo(target);
  }

  /**
    Copying a settings object's colours into a preset and applying it back
    changes nothing in the settings; the preset keeps its name and holds the
    settings' colours.
  */
  method RoundTrip(preset: ColorPreset, settings: Settings)
    modifies preset, settings
    ensures settings.Colors() == old(settings.Colors())
    ensures settings.Others() == old(settings.Others())
    ensures preset.Colors() == old(settings.Colors())
    ensures preset.name == old(preset.name)
  {
    preset.CopyFrom(settings);
    preset.ApplyTo(settings);
  }

  /** A new preset applied to a new settings object leaves it as it was: both start from the same palette. */
  method FreshPresetMatchesDefaults() returns (empty: bool, same: bool)
    ensures empty && same
  {
    var preset := new ColorPreset();
    var settings := new Settings();
    var before := settings.Colors();
    preset.ApplyTo(settings);
    empty := preset.IsEmpty();
    same := settings.Colors() == before;
  }
}
