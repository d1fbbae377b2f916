/** The settings store (src/hooks/useSettings.tsx): hard-coded defaults, the
    migration merge of stored values, and partial updates that are persisted. */
module SettingsStore {
  import opened Wrappers
  import opened Types

  /** `defaultSettings`. */
  const DefaultSettings := UserSettings(
    showOrderTime := false,
    showTips := true,
    showInfoServiceCost := false,
    showRentPercent := true,
    showMedicMechanic := false,
    includeRentInProfit := true,
    colorScheme := Light,
    accentColor := Cyan,
    defaultRentPercent := 3.0,
    defaultInfoServiceCost := 300.0,
    defaultMedicCost := 500.0,
    defaultMechanicCost := 1000.0)

  /** The defaults show tips and the rent percent, hide the order time, the
      info-service cost and the medic/mechanic costs, count rent in the profit,
      and set the tariffs to 3 %, 300, 500 and 1000. */
  lemma DefaultSettingsValues()
    ensures DefaultSettings.showTips && DefaultSettings.showRentPercent && DefaultSettings.includeRentInProfit
    ensures !DefaultSettings.showOrderTime && !DefaultSettings.showInfoServiceCost && !DefaultSettings.showMedicMechanic
    ensures DefaultSettings.colorScheme == Light && DefaultSettings.accentColor == Cyan
    ensures DefaultSettings.defaultRentPercent == 3.0 && DefaultSettings.defaultInfoServiceCost == 300.0
    ensures DefaultSettings.defaultMedicCost == 500.0 && DefaultSettings.defaultMechanicCost == 1000.0
  {
  }

  /** Migration fills a missing rent percent with the default 3 %, and keeps a
      stored one, so a resave never writes a missing rent percent. */
  lemma MigratedRentPercent(stored: PartialSettings)
    ensures Merge(DefaultSettings, stored).defaultRentPercent ==
      if stored.defaultRentPercent.None? then 3.0 else stored.defaultRentPercent.value
    ensures NeedsResave(stored) ==> Merge(DefaultSettings, stored).defaultRentPercent in {0.0, 3.0}
  {
  }

  /** `Partial<UserSettings>`: every key may be absent. */
  datatype PartialSettings = PartialSettings(
    showOrderTime: Option<bool>,
    showTips: Option<bool>,
    showInfoServiceCost: Option<bool>,
    showRentPercent: Option<bool>,
    showMedicMechanic: Option<bool>,
    includeRentInProfit: Option<bool>,
    colorScheme: Option<ColorScheme>,
    accentColor: Option<AccentColor>,
    defaultRentPercent: Option<real>,
    defaultInfoServiceCost: Option<real>,
    defaultMedicCost: Option<real>,
    defaultMechanicCost: Option<real>)

  /** The patch with no keys. */
  const NoChange := PartialSettings(None, None, None, None, None, None, None, None, None, None, None, None)

  /** Every key of `s`, as a patch (what a full stored settings object is). */
  function AllOf(s: UserSettings): PartialSettings {
    PartialSettings(
      Some(s.showOrderTime), Some(s.showTips), Some(s.showInfoServiceCost),
      Some(s.showRentPercent), Some(s.showMedicMechanic), Some(s.includeRentInProfit),
      Some(s.colorScheme), Some(s.accentColor),
      Some(s.defaultRentPercent), Some(s.defaultInfoServiceCost),
      Some(s.defaultMedicCost), Some(s.defaultMechanicCost))
  }

  /** The spread `{ ...base, ...patch }`: each key present in `patch` wins. */
  function Merge(base: UserSettings, patch: PartialSettings): (r: UserSettings)
    ensures patch.showOrderTime.Some? ==> r.showOrderTime == patch.showOrderTime.value
    ensures patch.showOrderTime.None? ==> r.showOrderTime == base.showOrderTime
    ensures patch.showTips.Some? ==> r.showTips == patch.showTips.value
    ensures patch.showTips.None? ==> r.showTips == base.showTips
    ensures patch.showInfoServiceCost.Some? ==> r.showInfoServiceCost == patch.showInfoServiceCost.value
    ensures patch.showInfoServiceCost.None? ==> r.showInfoServiceCost == base.showInfoServiceCost
    ensures patch.showRentPercent.Some? ==> r.showRentPercent == patch.showRentPercent.value
    ensures patch.showRentPercent.None? ==> r.showRentPercent == base.showRentPercent
    ensures patch.showMedicMechanic.Some? ==> r.showMedicMechanic == patch.showMedicMechanic.value
    ensures patch.showMedicMechanic.None? ==> r.showMedicMechanic == base.showMedicMechanic
    ensures patch.includeRentInProfit.Some? ==> r.includeRentInProfit == patch.includeRentInProfit.value
    ensures patch.includeRentInProfit.None? ==> r.includeRentInProfit == base.includeRentInProfit
    ensures patch.colorScheme.Some? ==> r.colorScheme == patch.colorScheme.value
    ensures patch.colorScheme.None? ==> r.colorScheme == base.colorScheme
    ensures patch.accentColor.Some? ==> r.accentColor == patch.accentColor.value
    ensures patch.accentColor.None? ==> r.accentColor == base.accentColor
    ensures patch.defaultRentPercent.Some? ==> r.defaultRentPercent == patch.defaultRentPercent.value
    ensures patch.defaultRentPercent.None? ==> r.defaultRentPercent == base.defaultRentPercent
    ensures patch.defaultInfoServiceCost.Some? ==> r.defaultInfoServiceCost == patch.defaultInfoServiceCost.value
    ensures patch.defaultInfoServiceCost.None? ==> r.defaultInfoServiceCost == base.defaultInfoServiceCost
    ensures patch.defaultMedicCost.Some? ==> r.defaultMedicCost == patch.defaultMedicCost.value
    ensures patch.defaultMedicCost.None? ==> r.defaultMedicCost == base.defaultMedicCost
    ensures patch.defaultMechanicCost.Some? ==> r.defaultMechanicCost == patch.defaultMechanicCost.value
    ensures patch.defaultMechanicCost.None? ==> r.defaultMechanicCost == base.defaultMechanicCost
  {
    UserSettings(
      patch.showOrderTime.GetOr(base.showOrderTime),
      patch.showTips.GetOr(base.showTips),
      patch.showInfoServiceCost.GetOr(base.showInfoServiceCost),
      patch.showRentPercent.GetOr(base.showRentPercent),
      patch.showMedicMechanic.GetOr(base.showMedicMechanic),
      patch.includeRentInProfit.GetOr(base.includeRentInProfit),
      patch.colorScheme.GetOr(base.colorScheme),
      patch.accentColor.GetOr(base.accentColor),
      patch.defaultRentPercent.GetOr(base.defaultRentPercent),
      patch.defaultInfoServiceCost.GetOr(base.defaultInfoServiceCost),
      patch.defaultMedicCost.GetOr(base.defaultMedicCost),
      patch.defaultMechanicCost.GetOr(base.defaultMechanicCost))
  }

  /** One key of the spread `{ ...p, ...q }`: the later value if present. */
  function Later<T>(p: Option<T>, q: Option<T>): Option<T> {
    if q.Some? then q else p
  }

  lemma LaterGetOr<T>(p: Option<T>, q: Option<T>, b: T)
    ensures Later(p, q).GetOr(b) == q.GetOr(p.GetOr(b))
  {
  }

  /** The spread `{ ...p, ...q }` of two patches: a key of `q` wins over one of `p`. */
  function Overlay(p: PartialSettings, q: PartialSettings): PartialSettings {
    PartialSettings(
      Later(p.showOrderTime, q.showOrderTime),
      Later(p.showTips, q.showTips),
      Later(p.showInfoServiceCost, q.showInfoServiceCost),
      Later(p.showRentPercent, q.showRentPercent),
      Later(p.showMedicMechanic, q.showMedicMechanic),
      Later(p.includeRentInProfit, q.includeRentInProfit),
      Later(p.colorScheme, q.colorScheme),
      Later(p.accentColor, q.accentColor),
      Later(p.defaultRentPercent, q.defaultRentPercent),
      Later(p.defaultInfoServiceCost, q.defaultInfoServiceCost),
      Later(p.defaultMedicCost, q.defaultMedicCost),
      Later(p.defaultMechanicCost, q.defaultMechanicCost))
  }

  /** An empty patch changes nothing. */
  lemma MergeNoChange(base: UserSettings)
    ensures Merge(base, NoChange) == base
  {
  }

  /** Two successive updates are one update with the overlaid patch. */
  lemma MergeTwice(base: UserSettings, p: PartialSettings, q: PartialSettings)
    ensures Merge(Merge(base, p), q) == Merge(base, Overlay(p, q))
  {
    LaterGetOr(p.showOrderTime, q.showOrderTime, base.showOrderTime);
    LaterGetOr(p.showTips, q.showTips, base.showTips);
    LaterGetOr(p.showInfoServiceCost, q.showInfoServiceCost, base.showInfoServiceCost);
    LaterGetOr(p.showRentPercent, q.showRentPercent, base.showRentPercent);
    LaterGetOr(p.showMedicMechanic, q.showMedicMechanic, base.showMedicMechanic);
    LaterGetOr(p.includeRentInProfit, q.includeRentInProfit, base.includeRentInProfit);
    LaterGetOr(p.colorScheme, q.colorScheme, base.colorScheme);
    LaterGetOr(p.accentColor, q.accentColor, base.accentColor);
    LaterGetOr(p.defaultRentPercent, q.defaultRentPercent, base.defaultRentPercent);
    LaterGetOr(p.defaultInfoServiceCost, q.defaultInfoServiceCost, base.defaultInfoServiceCost);
    LaterGetOr(p.defaultMedicCost, q.defaultMedicCost, base.defaultMedicCost);
    LaterGetOr(p.defaultMechanicCost, q.defaultMechanicCost, base.defaultMechanicCost);
  }

  /** Persisting settings and migrating them back at the next start gives the
      same settings: a full stored object overrides every default. */
  lemma MigrateRoundTrip(s: UserSettings)
    ensures Merge(DefaultSettings, AllOf(s)) == s
  {
  }

  /** `!stored.defaultRentPercent`: the stored rent percent is missing or 0. */
  predicate NeedsResave(stored: PartialSettings): (b: bool)
    ensures b <==> stored.defaultRentPercent.None? || stored.defaultRentPercent.value == 0.0
  {
    match stored.defaultRentPercent
    case None => true
    case Some(v) => v == 0.0
  }

  /** The settings context: the current settings, whether loading finished,
      and the log of every value handed to `saveSettings`. */
  class SettingsProvider {
    var settings: UserSettings
    var ready: bool
    var persisted: seq<UserSettings>

    constructor ()
      ensures settings == DefaultSettings && !ready && persisted == []
    {
      settings := DefaultSettings;
      ready := false;
      persisted := [];
    }

    /** The load effect: with stored settings, migrate them over the defaults
        and re-save them when their rent percent is missing or 0; with nothing
        stored keep the current settings; in either case become ready. */
    method Load(stored: Option<PartialSettings>)
      modifies this
      ensures ready
      ensures stored.None? ==> settings == old(settings) && persisted == old(persisted)
      ensures stored.Some? ==> settings == Merge(DefaultSettings, stored.value)
      ensures stored.Some? ==>
                persisted == old(persisted) + (if NeedsResave(stored.value) then [settings] else [])
    {
      if stored.Some? {
        var migrated := Merge(DefaultSettings, stored.value);
        settings := migrated;
        if NeedsResave(stored.value) {
          persisted := persisted + [migrated];
        }
      }
      ready := true;
    }

    /** `updateSettings(next)`: merge the patch over the previous settings and
        persist exactly the merged value. */
    method UpdateSettings(next: PartialSettings)
      modifies this`settings, this`persisted
      ensures settings == Merge(old(settings), next)
      ensures persisted == old(persisted) + [settings]
    {
      var updated := Merge(settings, next);
      persisted := persisted + [updated];
      settings := updated;
    }
  }
}
