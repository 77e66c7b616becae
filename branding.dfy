/**
 * Custom branding (src/mui.tsx:414-457 and 589-597). The government theme is
 * tagged with a marker, `palette.isGov = true`, before it is handed to the
 * application's `createMuiTheme`. If the theme that comes back still carries
 * the marker, it derives from the government theme: the marker is deleted and
 * nothing else is touched. Otherwise spacing, breakpoints, the
 * `MuiTablePagination` overrides and the typography (except its font family)
 * are forced back to the government values.
 */
module MuiBranding {

  import opened Wrappers

  /** `theme.spacing`: opaque here, copied as a whole. */
  type SpacingConfig(==)

  /** `theme.breakpoints`: opaque here, copied as a whole. */
  type BreakpointsConfig(==)

  /** A primitive value in a style object (a string, a number, ...). */
  type Primitive(==)

  /** A JSON-like style value: a primitive or an object of named values. */
  datatype StyleValue = Leaf(value: Primitive) | Object(fields: map<string, StyleValue>)

  const FontFamily := "fontFamily"
  const TablePagination := "MuiTablePagination"

  /**
   * `deepAssign({ target, source })`: every key of `source` is written into
   * `target`; where both sides hold an object the two are merged key by key,
   * otherwise the source value replaces the target value.
   */
  function DeepAssign(target: map<string, StyleValue>, source: map<string, StyleValue>): (r: map<string, StyleValue>)
    decreases Object(source)
    ensures r.Keys == target.Keys + source.Keys
    ensures forall k :: k in target && k !in source ==> r[k] == target[k]
  {
    map k | k in target.Keys + source.Keys ::
      if k !in source then target[k]
      else if k in target && target[k].Object? && source[k].Object? then
        Object(DeepAssign(target[k].fields, source[k].fields))
      else source[k]
  }

  /** The primitive at `path` inside an object, if any. */
  function LeafAt(m: map<string, StyleValue>, path: seq<string>): Option<Primitive>
    decreases |path|
  {
    if path == [] || path[0] !in m then None
    else
      match m[path[0]]
      case Leaf(v) => if |path| == 1 then Some(v) else None
      case Object(fields) => LeafAt(fields, path[1..])
  }

  /** The source wins: every primitive of `source` ends up at the same path in the result. */
  lemma {:induction false} DeepAssignSourceWins(target: map<string, StyleValue>, source: map<string, StyleValue>, path: seq<string>)
    requires LeafAt(source, path).Some?
    ensures LeafAt(DeepAssign(target, source), path) == LeafAt(source, path)
    decreases |path|
  {
    var k := path[0];
    var r := DeepAssign(target, source);
    if k in target && target[k].Object? && source[k].Object? {
      DeepAssignSourceWins(target[k].fields, source[k].fields, path[1..]);
    }
  }

  /**
   * `path` leads to no primitive of `source` and passes through no key where
   * a source primitive would replace the target's object: it leaves `source`
   * at a key `source` lacks, having followed only source objects.
   */
  predicate Untouched(source: map<string, StyleValue>, path: seq<string>)
    decreases |path|
  {
    path != [] &&
    (path[0] !in source ||
     (|path| > 1 && source[path[0]].Object? && Untouched(source[path[0]].fields, path[1..])))
  }

  /**
   * The merge is deep: a primitive of the target that the source does not
   * reach stays at its path, even inside a key both sides hold as objects.
   */
  lemma {:induction false} DeepAssignKeepsTarget(target: map<string, StyleValue>, source: map<string, StyleValue>, path: seq<string>)
    requires LeafAt(target, path).Some? && Untouched(source, path)
    ensures LeafAt(DeepAssign(target, source), path) == LeafAt(target, path)
    decreases |path|
  {
    var k := path[0];
    if k in source {
      DeepAssignKeepsTarget(target[k].fields, source[k].fields, path[1..]);
    }
  }

  /** Assigning an object into itself leaves it as it is. */
  lemma {:induction false} DeepAssignSelf(m: map<string, StyleValue>)
    ensures DeepAssign(m, m) == m
    decreases Object(m)
  {
    var r := DeepAssign(m, m);
    forall k | k in m
      ensures r[k] == m[k]
    {
      if m[k].Object? {
        DeepAssignSelf(m[k].fields);
      }
    }
  }

  /** Assigning the same source twice is the same as assigning it once. */
  lemma {:induction false} DeepAssignIdempotent(target: map<string, StyleValue>, source: map<string, StyleValue>)
    ensures DeepAssign(DeepAssign(target, source), source) == DeepAssign(target, source)
    decreases Object(source)
  {
    var once := DeepAssign(target, source);
    var twice := DeepAssign(once, source);
    forall k | k in twice.Keys
      ensures twice[k] == once[k]
    {
      if k in source && source[k].Object? {
        if k in target && target[k].Object? {
          DeepAssignIdempotent(target[k].fields, source[k].fields);
        } else {
          DeepAssignSelf(source[k].fields);
        }
      }
    }
  }

  /** The parts of a theme this model follows. */
  datatype ThemeValue = ThemeValue(
    isGovMarker: Option<bool>,                        // palette.isGov
    spacing: SpacingConfig,
    breakpoints: BreakpointsConfig,
    components: Option<map<string, StyleValue>>,
    typography: map<string, StyleValue>)

  /**
   * `structuredCloneButFunctions(theme_gov.typography, ...)` with the mapper
   * that substitutes the application's own `fontFamily`.
   */
  function GovTypographyWithFont(gov: map<string, StyleValue>, user: map<string, StyleValue>): (r: map<string, StyleValue>)
    ensures forall k :: k in gov && k != FontFamily ==> k in r && r[k] == gov[k]
    ensures forall k :: k in r && k != FontFamily ==> k in gov
    ensures FontFamily in r <==> FontFamily in gov && FontFamily in user
    ensures FontFamily in r ==> r[FontFamily] == user[FontFamily]
  {
    map k | k in gov && (k != FontFamily || FontFamily in user) ::
      if k == FontFamily then user[FontFamily] else gov[k]
  }

  /** The government theme always defines its `MuiTablePagination` overrides (src/mui.tsx:191-202). */
  predicate HasTablePagination(gov: ThemeValue) {
    gov.components.Some? && TablePagination in gov.components.value
  }

  /**
   * The reconciliation at src/mui.tsx:425-454, as a function of the theme
   * returned by the application and of the government theme: the resulting
   * theme and `isGov`.
   */
  function Reconciled(user: ThemeValue, gov: ThemeValue): (r: (ThemeValue, bool))
    requires HasTablePagination(gov)
    ensures r.1 <==> user.isGovMarker == Some(true)
    ensures r.0.isGovMarker != Some(true)
    ensures r.1 ==> r.0 == user.(isGovMarker := None)
    ensures !r.1 ==>
      && r.0.isGovMarker == user.isGovMarker
      && r.0.spacing == gov.spacing
      && r.0.breakpoints == gov.breakpoints
      && r.0.components.Some?
      && TablePagination in r.0.components.value
      && (forall path :: LeafAt(gov.components.value, [TablePagination] + path).Some? ==>
            LeafAt(r.0.components.value, [TablePagination] + path) == LeafAt(gov.components.value, [TablePagination] + path))
      && r.0.components.value.Keys == user.components.GetOr(map[]).Keys + {TablePagination}
      && (forall k :: user.components.Some? && k in user.components.value && k != TablePagination ==>
            k in r.0.components.value && r.0.components.value[k] == user.components.value[k])
      && (forall path :: LeafAt(user.components.GetOr(map[]), path).Some? &&
                         Untouched(map[TablePagination := gov.components.value[TablePagination]], path) ==>
            LeafAt(r.0.components.value, path) == LeafAt(user.components.GetOr(map[]), path))
      && (forall k :: k != FontFamily ==> (k in r.0.typography <==> k in gov.typography))
      && (forall k :: k in r.0.typography && k != FontFamily ==> r.0.typography[k] == gov.typography[k])
      && (FontFamily in r.0.typography <==> FontFamily in gov.typography && FontFamily in user.typography)
      && (FontFamily in r.0.typography ==> r.0.typography[FontFamily] == user.typography[FontFamily])
  {
    if user.isGovMarker == Some(true) then
      (user.(isGovMarker := None), true)
    else
      var components := user.components.GetOr(map[]);
      var source := map[TablePagination := gov.components.value[TablePagination]];
      var merged := DeepAssign(components, source);
      assert forall path :: LeafAt(gov.components.value, [TablePagination] + path).Some? ==>
               LeafAt(merged, [TablePagination] + path) == LeafAt(gov.components.value, [TablePagination] + path) by {
        forall path | LeafAt(gov.components.value, [TablePagination] + path).Some?
          ensures LeafAt(merged, [TablePagination] + path) == LeafAt(gov.components.value, [TablePagination] + path)
        {
          assert LeafAt(source, [TablePagination] + path) == LeafAt(gov.components.value, [TablePagination] + path);
          DeepAssignSourceWins(components, source, [TablePagination] + path);
        }
      }
      assert forall path :: LeafAt(components, path).Some? && Untouched(source, path) ==>
               LeafAt(merged, path) == LeafAt(components, path) by {
        forall path | LeafAt(components, path).Some? && Untouched(source, path)
          ensures LeafAt(merged, path) == LeafAt(components, path)
        {
          DeepAssignKeepsTarget(components, source, path);
        }
      }
      var themed := ThemeValue(
        user.isGovMarker,
        gov.spacing,
        gov.breakpoints,
        Some(merged),
        GovTypographyWithFont(gov.typography, user.typography));
      (themed, false)
  }

  /**
   * Reconciling a custom theme a second time changes nothing: the forced
   * values are already the government's, and the font family is kept.
   */
  lemma ReconciledIdempotent(user: ThemeValue, gov: ThemeValue)
    requires HasTablePagination(gov) && user.isGovMarker != Some(true)
    ensures Reconciled(Reconciled(user, gov).0, gov) == Reconciled(user, gov)
  {
    var components := user.components.GetOr(map[]);
    var source := map[TablePagination := gov.components.value[TablePagination]];
    DeepAssignIdempotent(components, source);
    var once := Reconciled(user, gov).0;
    var t := GovTypographyWithFont(gov.typography, once.typography);
    assert t == once.typography;
  }

  /** `theme.palette`, of which only the marker is followed. */
  class Palette {
    var isGov: Option<bool>

    constructor (isGov: Option<bool>)
      ensures this.isGov == isGov
    {
      this.isGov := isGov;
    }
  }

  /** A theme object, updated in place. */
  class Theme {
    var palette: Palette
    var spacing: SpacingConfig
    var breakpoints: BreakpointsConfig
    var components: Option<map<string, StyleValue>>
    var typography: map<string, StyleValue>

    constructor (palette: Palette, spacing: SpacingConfig, breakpoints: BreakpointsConfig,
                 components: Option<map<string, StyleValue>>, typography: map<string, StyleValue>)
      ensures this.palette == palette && this.spacing == spacing && this.breakpoints == breakpoints
      ensures this.components == components && this.typography == typography
    {
      this.palette := palette;
      this.spacing := spacing;
      this.breakpoints := breakpoints;
      this.components := components;
      this.typography := typography;
    }

    function Value(): ThemeValue
      reads this, palette
    {
      ThemeValue(palette.isGov, spacing, breakpoints, components, typography)
    }
  }

  /** `theme_gov.palette.isGov = true` (src/mui.tsx:418). */
  method MarkGovernmentTheme(gov: Theme)
    modifies gov.palette
    ensures gov.Value() == old(gov.Value()).(isGovMarker := Some(true))
  {
    gov.palette.isGov := Some(true);
  }

  /**
   * The in-place reconciliation of the theme the application returned,
   * against the government theme; yields `isGov`.
   */
  method Reconcile(theme: Theme, gov: Theme) returns (isGov: bool)
    requires HasTablePagination(gov.Value())
    modifies theme, theme.palette
    ensures (theme.Value(), isGov) == Reconciled(old(theme.Value()), old(gov.Value()))
    ensures theme.palette == old(theme.palette)
  {
    ghost var user := theme.Value();
    ghost var govValue := gov.Value();
    if theme.palette.isGov == Some(true) {
      isGov := true;
      theme.palette.isGov := None;
    } else {
      isGov := false;
    }
    if !isGov {
      theme.spacing := gov.spacing;
      theme.breakpoints := gov.breakpoints;
      if theme.components.None? {
        theme.components := Some(map[]);
      }
      var source := map[TablePagination := gov.components.value[TablePagination]];
      theme.components := Some(DeepAssign(theme.components.value, source));
      theme.typography := GovTypographyWithFont(gov.typography, theme.typography);
    }
  }

  /** `useIsGov`: the flag provided by an enclosing branding provider, or the error it throws outside one. */
  datatype ContextError = UsedOutsideProvider

  function UseIsGov(context: Option<bool>): (r: Result<bool, ContextError>)
    ensures r.Success? <==> context.Some?
    ensures r.Success? ==> r.value == context.value
  {
    match context
    case None => Failure(UsedOutsideProvider)
    case Some(isGov) => Success(isGov)
  }

  /** Inside the provider the hook reports the flag the reconciliation computed. */
  lemma UseIsGovInsideProvider(user: ThemeValue, gov: ThemeValue)
    requires HasTablePagination(gov)
    ensures UseIsGov(Some(Reconciled(user, gov).1)) == Success(user.isGovMarker == Some(true))
  {
  }
}
