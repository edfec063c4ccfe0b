/**
 * Colour resolution for the four painted slots and the workbench
 * colour-customisation map that `applyWorkbenchColors` writes.
 */
module Colors {
  import opened Wrappers
  import opened Rules

  /** JavaScript truthiness of a colour property: absent and "" are falsy. */
  predicate Truthy(f: Field) {
    f.Some? && f.value != ""
  }

  /** JavaScript `a || b` on two colour properties. */
  function Or(a: Field, b: Field): Field {
    if Truthy(a) then a else b
  }

  /** `(x || fallback)` where the fallback is an always-present default. */
  function OrDefault(a: Field, fallback: string): string {
    if Truthy(a) then a.value else fallback
  }

  /** `branchHighlighter.defaultColors`. */
  datatype DefaultColors = DefaultColors(bg: string, fg: string)

  /** The colours one render paints. */
  datatype ResolvedColors = ResolvedColors(statusBg: string, statusFg: string, titleBg: string, titleFg: string)

  /** The four painted slots. */
  datatype Slot = StatusBg | StatusFg | TitleBg | TitleFg

  /** A slot's own rule property (`statusBg`, `statusFg`, `titleBarBg`, `titleBarFg`). */
  function SpecificField(r: Rule, s: Slot): Field {
    match s
    case StatusBg => r.statusBg
    case StatusFg => r.statusFg
    case TitleBg => r.titleBarBg
    case TitleFg => r.titleBarFg
  }

  /** The generic rule property a slot falls back to (`bg` or `fg`). */
  function GenericField(r: Rule, s: Slot): Field {
    if s == StatusBg || s == TitleBg then r.bg else r.fg
  }

  /** The default a slot falls back to last. */
  function DefaultFor(d: DefaultColors, s: Slot): string {
    if s == StatusBg || s == TitleBg then d.bg else d.fg
  }

  /** The colour a resolved set holds for a slot. */
  function ColorAt(c: ResolvedColors, s: Slot): string {
    match s
    case StatusBg => c.statusBg
    case StatusFg => c.statusFg
    case TitleBg => c.titleBg
    case TitleFg => c.titleFg
  }

  /** The precedence every slot follows, independently of the others: the
      rule's slot-specific property if truthy, else its generic property if
      truthy, else the default. */
  predicate FollowsPrecedence(rule: Option<Rule>, d: DefaultColors, c: ResolvedColors, s: Slot) {
    if rule.Some? && Truthy(SpecificField(rule.value, s)) then ColorAt(c, s) == SpecificField(rule.value, s).value
    else if rule.Some? && Truthy(GenericField(rule.value, s)) then ColorAt(c, s) == GenericField(rule.value, s).value
    else ColorAt(c, s) == DefaultFor(d, s)
  }

  /** `(rule && (rule.<slot> || rule.<generic>)) || defaultColors.<generic>`
      for the four slots. */
  function ResolveColors(rule: Option<Rule>, defaults: DefaultColors): (c: ResolvedColors)
    ensures forall s :: FollowsPrecedence(rule, defaults, c, s)
  {
    match rule
    case None => ResolvedColors(defaults.bg, defaults.fg, defaults.bg, defaults.fg)
    case Some(r) =>
      ResolvedColors(
        OrDefault(Or(r.statusBg, r.bg), defaults.bg),
        OrDefault(Or(r.statusFg, r.fg), defaults.fg),
        OrDefault(Or(r.titleBarBg, r.bg), defaults.bg),
        OrDefault(Or(r.titleBarFg, r.fg), defaults.fg))
  }

  /** With no matching rule every slot takes its default. */
  lemma NoRuleUsesDefaults(defaults: DefaultColors)
    ensures ResolveColors(None, defaults) ==
      ResolvedColors(defaults.bg, defaults.fg, defaults.bg, defaults.fg)
  {
  }

  /** A rule that sets only the generic colours paints both surfaces with them. */
  lemma GenericColorsPaintBothSurfaces(r: Rule, defaults: DefaultColors)
    requires !Truthy(r.statusBg) && !Truthy(r.statusFg) && !Truthy(r.titleBarBg) && !Truthy(r.titleBarFg)
    requires Truthy(r.bg) && !Truthy(r.fg)
    ensures ResolveColors(Some(r), defaults) ==
      ResolvedColors(r.bg.value, defaults.fg, r.bg.value, defaults.fg)
  {
  }

  /** The settings value `workbench.colorCustomizations`: key to colour. */
  type ColorMap = map<string, string>

  const StatusBackground := "statusBar.background"
  const StatusForeground := "statusBar.foreground"
  const StatusNoFolderBackground := "statusBar.noFolderBackground"
  const StatusDebuggingBackground := "statusBar.debuggingBackground"
  const TitleActiveBackground := "titleBar.activeBackground"
  const TitleActiveForeground := "titleBar.activeForeground"
  const TitleInactiveBackground := "titleBar.inactiveBackground"
  const TitleInactiveForeground := "titleBar.inactiveForeground"

  /** The eight keys every merge overwrites. */
  const FixedKeys: set<string> := {
    StatusBackground, StatusForeground, StatusNoFolderBackground, StatusDebuggingBackground,
    TitleActiveBackground, TitleActiveForeground, TitleInactiveBackground, TitleInactiveForeground }

  /** `{...existing, <eight keys>}` with `existing || {}`. */
  function MergeColors(existing: Option<ColorMap>, c: ResolvedColors): (m: ColorMap)
    ensures m.Keys == existing.GetOr(map[]).Keys + FixedKeys
    ensures m[StatusBackground] == c.statusBg
    ensures m[StatusNoFolderBackground] == c.statusBg
    ensures m[StatusDebuggingBackground] == c.statusBg
    ensures m[StatusForeground] == c.statusFg
    ensures m[TitleActiveBackground] == c.titleBg && m[TitleInactiveBackground] == c.titleBg
    ensures m[TitleActiveForeground] == c.titleFg && m[TitleInactiveForeground] == c.titleFg
    ensures forall k | k in existing.GetOr(map[]) && k !in FixedKeys :: m[k] == existing.GetOr(map[])[k]
  {
    existing.GetOr(map[]) + map[
      StatusBackground := c.statusBg,
      StatusForeground := c.statusFg,
      StatusNoFolderBackground := c.statusBg,
      StatusDebuggingBackground := c.statusBg,
      TitleActiveBackground := c.titleBg,
      TitleActiveForeground := c.titleFg,
      TitleInactiveBackground := c.titleBg,
      TitleInactiveForeground := c.titleFg]
  }

  /** Two maps that agree outside the fixed keys merge to the same result:
      what a merge writes does not depend on what it overwrites. */
  lemma MergeForgetsFixedKeys(m1: ColorMap, m2: ColorMap, c: ResolvedColors)
    requires m1.Keys + FixedKeys == m2.Keys + FixedKeys
    requires forall k | k in m1 && k !in FixedKeys :: k in m2 && m1[k] == m2[k]
    ensures MergeColors(Some(m1), c) == MergeColors(Some(m2), c)
  {
  }

  /** Merging the same colours into a merged map changes nothing. */
  lemma MergeIdempotent(existing: Option<ColorMap>, c: ResolvedColors)
    ensures MergeColors(Some(MergeColors(existing, c)), c) == MergeColors(existing, c)
  {
  }

  /** A later merge overrides every colour of an earlier one and keeps the
      rest of the original map: the last write wins. */
  lemma LastMergeWins(existing: Option<ColorMap>, c1: ResolvedColors, c2: ResolvedColors)
    ensures MergeColors(Some(MergeColors(existing, c1)), c2) == MergeColors(existing, c2)
  {
  }
}
