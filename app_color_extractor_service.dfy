/**
 * The background service that picks an accent colour for another application and
 * stores it keyed by package name. For one package it tries the themed `colorPrimary`
 * attribute, then `android:colorPrimary`, rejecting two reserved greys; when neither
 * gives a colour it falls back to the most populous swatch of the icon's palette.
 *
 * The package manager, theme resolution and palette generation are inputs here:
 * attribute ids, the themed values they resolve to, and the swatch list. Saving to
 * the database is recorded as an entry in the service's `saves` log.
 */
module DynamicToolbar {
  import opened Wrappers

  /** A platform call that either returns or throws PackageManager.NameNotFoundException. */
  datatype Outcome<T> = Returned(value: T) | NameNotFound

  datatype Swatch = Swatch(population: int, rgb: int)

  /** NO_COLOR and the colours md_grey_100 and md_grey_900 as the service resolves them. */
  datatype ColorConstants = ColorConstants(noColor: int, grey100: int, grey900: int)

  /**
   * What the platform reports for a package's resources: the ids of the attributes
   * `colorPrimary` and `android:colorPrimary` (0 when not found) and, for each, what
   * applying the package's theme gives: the styled colour (None when the theme does
   * not set it), or NameNotFound when the package info lookup throws.
   */
  datatype PackageResources = PackageResources(
    appCompatId: int,
    appCompatStyled: Outcome<Option<int>>,
    lollipopId: int,
    lollipopStyled: Outcome<Option<int>>)

  /** Everything the platform answers about one package. */
  datatype InstalledPackage = InstalledPackage(
    resources: Outcome<PackageResources>,
    iconSwatches: Outcome<seq<Option<Swatch>>>)

  /** An intent delivered to the service, with its EXTRA_PACKAGE_NAME extra. */
  datatype Intent = Intent(packageName: Option<string>)

  /** One call of saveColorToDb. */
  datatype ColorSave = ColorSave(packageName: string, color: int)

  function SavesOf(packageName: string, color: Option<int>): seq<ColorSave> {
    if color.Some? then [ColorSave(packageName, color.value)] else []
  }

  // ---------------------------------------------------------------------------
  // Which packages are skipped
  // ---------------------------------------------------------------------------

  /** Character.toUpperCase, on the ASCII letters. */
  function ToUpperCase(c: char): char {
    if 'a' <= c <= 'z' then (c as int - 32) as char else c
  }

  /** Character.toLowerCase, on the ASCII letters. */
  function ToLowerCase(c: char): char {
    if 'A' <= c <= 'Z' then (c as int + 32) as char else c
  }

  /** The per-character test of String.equalsIgnoreCase. */
  predicate CharEqualsIgnoreCase(a: char, b: char) {
    || a == b
    || ToUpperCase(a) == ToUpperCase(b)
    || ToLowerCase(ToUpperCase(a)) == ToLowerCase(ToUpperCase(b))
  }

  predicate EqualsIgnoreCase(a: string, b: string) {
    |a| == |b| && forall i :: 0 <= i < |a| ==> CharEqualsIgnoreCase(a[i], b[i])
  }

  /**
   * Despite its name, true means the package is SKIPPED: it is this application
   * itself, the platform package "android", or empty.
   */
  predicate IsValidPackage(app: string, ownPackage: string) {
    EqualsIgnoreCase(app, ownPackage) || EqualsIgnoreCase(app, "android") || app == ""
  }

  /** The own package and "android", each in any letter case, and "" are skipped. */
  lemma SkippedPackages(app: string, ownPackage: string)
    ensures EqualsIgnoreCase(app, ownPackage) ==> IsValidPackage(app, ownPackage)
    ensures EqualsIgnoreCase(app, "android") ==> IsValidPackage(app, ownPackage)
    ensures IsValidPackage(ownPackage, ownPackage)
    ensures IsValidPackage("Android", ownPackage) && IsValidPackage("ANDROID", ownPackage)
    ensures IsValidPackage("", ownPackage)
  {
  }

  /**
   * Any other name is handled: a non-empty name whose length differs from "android"
   * and that is not the own package in any case, such as "com.android.chrome", which
   * merely contains "android".
   */
  lemma HandledPackages(app: string, ownPackage: string)
    requires app != "" && |app| != |"android"| && !EqualsIgnoreCase(app, ownPackage)
    ensures !IsValidPackage(app, ownPackage)
    ensures !IsValidPackage("com.android.chrome", "arun.com.chromer")
  {
  }

  /** The skip test does not depend on letter case. */
  lemma SkipIgnoresCase(app: string, other: string, ownPackage: string)
    requires |app| == |other|
    requires forall i :: 0 <= i < |app| ==> ToUpperCase(app[i]) == ToUpperCase(other[i])
    ensures IsValidPackage(app, ownPackage) <==> IsValidPackage(other, ownPackage)
  {
  }

  // ---------------------------------------------------------------------------
  // Colour from the package's theme
  // ---------------------------------------------------------------------------

  /**
   * getThemedColor: -1 without resources or with attribute id 0; otherwise the styled
   * value of the attribute (NO_COLOR when the theme leaves it unset), with the two
   * greys replaced by NO_COLOR. A failing package info lookup propagates.
   */
  function ThemedColor(resources: Option<PackageResources>, attributeId: int,
                       styled: Outcome<Option<int>>, k: ColorConstants): (r: Outcome<int>)
    ensures resources.None? || attributeId == 0 ==> r == Returned(-1)
    ensures resources.Some? && attributeId != 0 ==> (r.NameNotFound? <==> styled.NameNotFound?)
    ensures resources.Some? && attributeId != 0 && r.Returned? ==>
              r.value == k.noColor
              || (styled == Returned(Some(r.value)) && r.value != k.grey100 && r.value != k.grey900)
    ensures (&& resources.Some? && attributeId != 0 && styled.Returned? && styled.value.Some?
             && (styled.value.value == k.grey100 || styled.value.value == k.grey900))
            ==> r == Returned(k.noColor)
    ensures (&& resources.Some? && attributeId != 0 && styled.Returned? && styled.value.Some?
             && styled.value.value != k.grey100 && styled.value.value != k.grey900)
            ==> r == Returned(styled.value.value)
    ensures resources.Some? && attributeId != 0 && styled == Returned(None) ==>
              r == Returned(k.noColor)
  {
    if resources.None? || attributeId == 0 then Returned(-1)
    else match styled
      case NameNotFound => NameNotFound
      case Returned(value) =>
        var color := value.GetOr(k.noColor);
        if color == k.grey100 || color == k.grey900 then Returned(k.noColor) else Returned(color)
  }

  /**
   * One attribute attempt of extractColorFromResources: skipped when the id is not
   * positive; otherwise Some(colour) to save, None to go on, or NameNotFound.
   */
  function AttributeColor(resources: PackageResources, attributeId: int,
                          styled: Outcome<Option<int>>, k: ColorConstants): Outcome<Option<int>> {
    if attributeId > 0 then
      match ThemedColor(Some(resources), attributeId, styled, k)
      case NameNotFound => NameNotFound
      case Returned(color) => Returned(if color != k.noColor then Some(color) else None)
    else Returned(None)
  }

  /**
   * The colour extractColorFromResources saves, or None when it returns false: the
   * first attempt that yields a colour wins, and an exception anywhere ends the lookup.
   */
  function ResourceColor(resources: Outcome<PackageResources>, k: ColorConstants): (saved: Option<int>)
    ensures saved.Some? ==> saved.value != k.noColor && saved.value != k.grey100 && saved.value != k.grey900
    ensures saved.Some? ==>
              (&& resources.Returned?
               && (|| (resources.value.appCompatId > 0 && resources.value.appCompatStyled == Returned(saved))
                   || (resources.value.lollipopId > 0 && resources.value.lollipopStyled == Returned(saved))))
  {
    match resources
    case NameNotFound => None
    case Returned(res) =>
      match AttributeColor(res, res.appCompatId, res.appCompatStyled, k)
      case NameNotFound => None
      case Returned(Some(color)) => Some(color)
      case Returned(None) =>
        match AttributeColor(res, res.lollipopId, res.lollipopStyled, k)
        case NameNotFound => None
        case Returned(found) => found
  }

  /** A usable `colorPrimary` wins over `android:colorPrimary`, whatever the latter holds. */
  lemma AppCompatAttributeComesFirst(res: PackageResources, k: ColorConstants, c: int)
    requires res.appCompatId > 0 && res.appCompatStyled == Returned(Some(c))
    requires c != k.noColor && c != k.grey100 && c != k.grey900
    ensures ResourceColor(Returned(res), k) == Some(c)
  {
  }

  /** When `colorPrimary` is missing, unset, NO_COLOR or grey, `android:colorPrimary` decides. */
  lemma LollipopAttributeIsSecond(res: PackageResources, k: ColorConstants)
    requires || res.appCompatId <= 0
             || (&& res.appCompatStyled.Returned?
                 && (|| res.appCompatStyled.value.None?
                     || res.appCompatStyled.value.value in {k.noColor, k.grey100, k.grey900}))
    ensures res.lollipopId <= 0 ==> ResourceColor(Returned(res), k) == None
    ensures res.lollipopId > 0 && res.lollipopStyled.NameNotFound? ==> ResourceColor(Returned(res), k) == None
    ensures (&& res.lollipopId > 0 && res.lollipopStyled.Returned?
             && (|| res.lollipopStyled.value.None?
                 || res.lollipopStyled.value.value in {k.noColor, k.grey100, k.grey900}))
            ==> ResourceColor(Returned(res), k) == None
    ensures (&& res.lollipopId > 0 && res.lollipopStyled.Returned? && res.lollipopStyled.value.Some?
             && res.lollipopStyled.value.value !in {k.noColor, k.grey100, k.grey900})
            ==> ResourceColor(Returned(res), k) == res.lollipopStyled.value
  {
  }

  /** A theme lookup that throws on the first attribute ends the lookup: the second is never tried. */
  lemma ThemeFailureEndsResourceLookup(res: PackageResources, k: ColorConstants)
    requires res.appCompatId > 0 && res.appCompatStyled.NameNotFound?
    ensures ResourceColor(Returned(res), k) == None
  {
  }

  // ---------------------------------------------------------------------------
  // Colour from the icon's palette
  // ---------------------------------------------------------------------------

  /** The comparator's key: a null swatch counts as population 0. */
  function PopulationOf(s: Option<Swatch>): int {
    if s.Some? then s.value.population else 0
  }

  /**
   * Index i is the swatch Collections.max returns under the population comparator:
   * no swatch has a larger population, and every earlier one has a smaller one (the
   * JDK loop replaces its candidate only on a strictly larger element).
   */
  ghost predicate IsFirstMostPopulous(swatches: seq<Option<Swatch>>, i: int) {
    && 0 <= i < |swatches|
    && (forall j :: 0 <= j < |swatches| ==> PopulationOf(swatches[j]) <= PopulationOf(swatches[i]))
    && (forall j :: 0 <= j < i ==> PopulationOf(swatches[j]) < PopulationOf(swatches[i]))
  }

  /** The loop of Collections.max: `best` is the candidate, `next` the next element to compare. */
  function MaxFrom(swatches: seq<Option<Swatch>>, best: nat, next: nat): (r: nat)
    requires best < next <= |swatches|
    requires forall j :: 0 <= j < next ==> PopulationOf(swatches[j]) <= PopulationOf(swatches[best])
    requires forall j :: 0 <= j < best ==> PopulationOf(swatches[j]) < PopulationOf(swatches[best])
    ensures IsFirstMostPopulous(swatches, r)
    decreases |swatches| - next
  {
    if next == |swatches| then best
    else if PopulationOf(swatches[next]) - PopulationOf(swatches[best]) > 0 then MaxFrom(swatches, next, next + 1)
    else MaxFrom(swatches, best, next + 1)
  }

  /** There is only one first most populous swatch. */
  lemma FirstMostPopulousIsUnique(swatches: seq<Option<Swatch>>, i: int, j: int)
    requires IsFirstMostPopulous(swatches, i) && IsFirstMostPopulous(swatches, j)
    ensures i == j
  {
    // Both are maximal, so their populations are equal; then neither can come first,
    // since every swatch before a first most populous one is strictly less populous.
    assert PopulationOf(swatches[j]) <= PopulationOf(swatches[i]);
    assert PopulationOf(swatches[i]) <= PopulationOf(swatches[j]);
  }

  /**
   * getPreferredColorFromSwatches: the rgb of the swatch Collections.max picks, or -1
   * when that swatch is null. An empty list makes Collections.max throw.
   */
  function PreferredColorFromSwatches(swatches: seq<Option<Swatch>>): (rgb: int)
    requires |swatches| > 0
    ensures exists i :: IsFirstMostPopulous(swatches, i) &&
              rgb == (if swatches[i].Some? then swatches[i].value.rgb else -1)
  {
    var i := MaxFrom(swatches, 0, 1);
    if swatches[i].Some? then swatches[i].value.rgb else -1
  }

  /** A swatch strictly more populous than every other one decides the colour. */
  lemma StrictlyMostPopulousSwatchWins(swatches: seq<Option<Swatch>>, k: nat)
    requires k < |swatches| && swatches[k].Some?
    requires forall j :: 0 <= j < |swatches| && j != k ==> PopulationOf(swatches[j]) < PopulationOf(swatches[k])
    ensures PreferredColorFromSwatches(swatches) == swatches[k].value.rgb
  {
  }

  /** A list of null swatches yields -1. */
  lemma NullSwatchesGiveMinusOne(swatches: seq<Option<Swatch>>)
    requires |swatches| > 0
    requires forall j :: 0 <= j < |swatches| ==> swatches[j].None?
    ensures PreferredColorFromSwatches(swatches) == -1
  {
  }

  /**
   * The colour extractColorFromAppIcon saves: the preferred swatch colour unless it is
   * NO_COLOR; nothing when the icon lookup throws.
   */
  function IconColor(icon: Outcome<seq<Option<Swatch>>>, k: ColorConstants): (saved: Option<int>)
    requires icon.Returned? ==> |icon.value| > 0
    ensures saved.Some? ==> saved.value != k.noColor && icon.Returned?
    ensures saved.Some? ==> saved.value == PreferredColorFromSwatches(icon.value)
    ensures icon.Returned? && PreferredColorFromSwatches(icon.value) != k.noColor ==> saved.Some?
  {
    match icon
    case NameNotFound => None
    case Returned(swatches) =>
      var color := PreferredColorFromSwatches(swatches);
      if color != k.noColor then Some(color) else None
  }

  // ---------------------------------------------------------------------------
  // Handling one intent
  // ---------------------------------------------------------------------------

  /** What onHandleIntent saves for one intent, if anything. */
  function HandleIntent(intent: Option<Intent>, app: InstalledPackage, ownPackage: string,
                        k: ColorConstants): (save: Option<ColorSave>)
    requires app.iconSwatches.Returned? ==> |app.iconSwatches.value| > 0
    ensures save.Some? ==> intent.Some? && intent.value.packageName == Some(save.value.packageName)
    ensures save.Some? ==> !IsValidPackage(save.value.packageName, ownPackage)
    ensures save.Some? ==> save.value.color != k.noColor
  {
    if intent.None? || intent.value.packageName.None? then None
    else
      var packageName := intent.value.packageName.value;
      if IsValidPackage(packageName, ownPackage) then None
      else
        var color := if ResourceColor(app.resources, k).Some? then ResourceColor(app.resources, k)
                     else IconColor(app.iconSwatches, k);
        if color.Some? then Some(ColorSave(packageName, color.value)) else None
  }

  /** No intent, no package name, or a skipped package: nothing is saved. */
  lemma NothingSavedWithoutHandledPackage(intent: Option<Intent>, app: InstalledPackage, ownPackage: string, k: ColorConstants)
    requires app.iconSwatches.Returned? ==> |app.iconSwatches.value| > 0
    requires intent.None? || intent.value.packageName.None? || IsValidPackage(intent.value.packageName.value, ownPackage)
    ensures HandleIntent(intent, app, ownPackage, k) == None
  {
  }

  /** A colour from the resources is saved and the icon is never consulted. */
  lemma ResourceColorSkipsIcon(packageName: string, app: InstalledPackage, ownPackage: string, k: ColorConstants)
    requires app.iconSwatches.Returned? ==> |app.iconSwatches.value| > 0
    requires !IsValidPackage(packageName, ownPackage)
    requires ResourceColor(app.resources, k).Some?
    ensures HandleIntent(Some(Intent(Some(packageName))), app, ownPackage, k)
            == Some(ColorSave(packageName, ResourceColor(app.resources, k).value))
    ensures forall icon: Outcome<seq<Option<Swatch>>> | icon.Returned? ==> |icon.value| > 0 ::
              HandleIntent(Some(Intent(Some(packageName))), app.(iconSwatches := icon), ownPackage, k)
              == HandleIntent(Some(Intent(Some(packageName))), app, ownPackage, k)
  {
  }

  /** Without a colour from the resources, the icon decides. */
  lemma IconIsTheFallback(packageName: string, app: InstalledPackage, ownPackage: string, k: ColorConstants)
    requires app.iconSwatches.Returned? ==> |app.iconSwatches.value| > 0
    requires !IsValidPackage(packageName, ownPackage)
    requires ResourceColor(app.resources, k).None?
    ensures HandleIntent(Some(Intent(Some(packageName))), app, ownPackage, k)
            == if IconColor(app.iconSwatches, k).Some?
               then Some(ColorSave(packageName, IconColor(app.iconSwatches, k).value)) else None
  {
  }

  /**
   * A theme whose primary colour is one of the reserved greys does not decide the
   * colour: the lookup goes on to the icon.
   */
  lemma GreyThemeFallsBackToIcon(packageName: string, app: InstalledPackage, ownPackage: string, k: ColorConstants, grey: int)
    requires app.iconSwatches.Returned? ==> |app.iconSwatches.value| > 0
    requires !IsValidPackage(packageName, ownPackage)
    requires grey == k.grey100 || grey == k.grey900
    requires app.resources.Returned?
    requires app.resources.value.appCompatStyled == Returned(Some(grey))
    requires app.resources.value.lollipopId <= 0 || app.resources.value.lollipopStyled == Returned(Some(grey))
    ensures HandleIntent(Some(Intent(Some(packageName))), app, ownPackage, k)
            == if IconColor(app.iconSwatches, k).Some?
               then Some(ColorSave(packageName, IconColor(app.iconSwatches, k).value)) else None
  {
  }

  /** The service, with the log of its saveColorToDb calls. */
  class AppColorExtractorService {
    /** getPackageName() of this application. */
    const ownPackage: string
    const colors: ColorConstants
    /** Every colour written to the database, in order. */
    var saves: seq<ColorSave>

    constructor (ownPackage: string, colors: ColorConstants)
      ensures this.ownPackage == ownPackage && this.colors == colors && saves == []
    {
      this.ownPackage := ownPackage;
      this.colors := colors;
      saves := [];
    }

    method OnHandleIntent(intent: Option<Intent>, app: InstalledPackage)
      requires app.iconSwatches.Returned? ==> |app.iconSwatches.value| > 0
      modifies this`saves
      ensures |saves| <= |old(saves)| + 1
      ensures HandleIntent(intent, app, ownPackage, colors).Some? ==>
                saves == old(saves) + [HandleIntent(intent, app, ownPackage, colors).value]
      ensures HandleIntent(intent, app, ownPackage, colors).None? ==> saves == old(saves)
    {
      if intent.Some? {
        var packageName := intent.value.packageName;
        if packageName.Some? {
          if IsValidPackage(packageName.value, ownPackage) {
            return;
          }
          var found := ExtractColorFromResources(packageName.value, app.resources);
          if !found {
            ExtractColorFromAppIcon(packageName.value, app.iconSwatches);
          }
        }
      }
    }

    method ExtractColorFromResources(packageName: string, resources: Outcome<PackageResources>) returns (found: bool)
      modifies this`saves
      ensures found <==> ResourceColor(resources, colors).Some?
      ensures saves == old(saves) + SavesOf(packageName, ResourceColor(resources, colors))
    {
      if resources.NameNotFound? {
        return false;
      }
      var res := resources.value;
      var appCompatId := res.appCompatId;
      if appCompatId > 0 {
        var color := ThemedColor(Some(res), appCompatId, res.appCompatStyled, colors);
        if color.NameNotFound? {
          return false;
        }
        if color.value != colors.noColor {
          SaveColorToDb(packageName, color.value);
          return true;
        }
      }
      var lollipopAttrId := res.lollipopId;
      if lollipopAttrId > 0 {
        var color := ThemedColor(Some(res), lollipopAttrId, res.lollipopStyled, colors);
        if color.NameNotFound? {
          return false;
        }
        if color.value != colors.noColor {
          SaveColorToDb(packageName, color.value);
          return true;
        }
      }
      return false;
    }

    method ExtractColorFromAppIcon(packageName: string, icon: Outcome<seq<Option<Swatch>>>)
      requires icon.Returned? ==> |icon.value| > 0
      modifies this`saves
      ensures saves == old(saves) + SavesOf(packageName, IconColor(icon, colors))
    {
      if icon.NameNotFound? {
        return;
      }
      var extractColor := PreferredColorFromSwatches(icon.value);
      if extractColor != colors.noColor {
        SaveColorToDb(packageName, extractColor);
      }
    }

    method SaveColorToDb(packageName: string, extractedColor: int)
      modifies this`saves
      ensures saves == old(saves) + [ColorSave(packageName, extractedColor)]
    {
      saves := saves + [ColorSave(packageName, extractedColor)];
    }
  }
}
