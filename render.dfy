/**
 * The `render` step of the extension: hide or fill the status-bar item and
 * write or restore `workbench.colorCustomizations`.
 */
module Render {
  import opened Wrappers
  import opened Rules
  import opened Colors
  import opened Repos

  /** The `branchHighlighter.*` settings as `getConfig` returns them. */
  datatype Config = Config(
    showStatusBar: bool,
    updateTitleBarColors: bool,
    rules: seq<Rule>,
    defaultColors: DefaultColors,
    debug: bool)

  /** The values `getConfig` falls back to for unset settings. */
  const DefaultConfig := Config(true, true, [], DefaultColors("#444444", "#ffffff"), false)

  const StatusTextPrefix := "$(lightbulb) "
  const StatusTooltip := "Current Git branch - Click to copy"

  /** What the status-bar item shows. */
  datatype StatusView = StatusView(visible: bool, text: string, tooltip: Option<string>, color: Option<string>)

  /** The host state one render reads and writes. */
  datatype HostState = HostState(status: StatusView, colorCustomizations: Option<ColorMap>)

  /** JavaScript truthiness of the branch name: absent and "" mean no branch. */
  predicate HasBranch(branch: Option<string>) {
    branch.Some? && branch.value != ""
  }

  /** The colours a render paints for a branch under a configuration. */
  function ColorsFor<Re>(e: Engine<Re>, branch: string, cfg: Config): ResolvedColors {
    ResolveColors(FirstMatch(e, branch, cfg.rules), cfg.defaultColors)
  }

  /** Under the default settings no rule exists, so every branch is painted
      with the default colours: grey backgrounds and white foregrounds. */
  lemma DefaultConfigPaintsDefaults<Re>(e: Engine<Re>, branch: string)
    ensures ColorsFor(e, branch, DefaultConfig) == ResolvedColors("#444444", "#ffffff", "#444444", "#ffffff")
  {
  }

  /** The state one render leaves behind, given the state before it, the
      startup snapshot of the colour customisations and the branch name. */
  function RenderStep<Re>(e: Engine<Re>, s: HostState, snapshot: Option<ColorMap>, branch: Option<string>, cfg: Config): (t: HostState)
    // No branch: the item is hidden and, when colours are managed, the snapshot is restored.
    ensures !HasBranch(branch) ==>
      t.status == s.status.(visible := false) &&
      t.colorCustomizations == (if cfg.updateTitleBarColors then snapshot else s.colorCustomizations)
    // A branch: the item shows the branch in the status foreground, or is hidden.
    ensures HasBranch(branch) && cfg.showStatusBar ==>
      t.status == StatusView(true, StatusTextPrefix + branch.value, Some(StatusTooltip),
                             Some(ColorsFor(e, branch.value, cfg).statusFg))
    ensures HasBranch(branch) && !cfg.showStatusBar ==> t.status == s.status.(visible := false)
    // A branch: the resolved colours are merged in only when colours are managed.
    ensures HasBranch(branch) ==>
      t.colorCustomizations ==
        if cfg.updateTitleBarColors then Some(MergeColors(s.colorCustomizations, ColorsFor(e, branch.value, cfg)))
        else s.colorCustomizations
  {
    if !HasBranch(branch) then
      HostState(s.status.(visible := false),
                if cfg.updateTitleBarColors then snapshot else s.colorCustomizations)
    else
      var c := ColorsFor(e, branch.value, cfg);
      var status :=
        if cfg.showStatusBar then StatusView(true, StatusTextPrefix + branch.value, Some(StatusTooltip), Some(c.statusFg))
        else s.status.(visible := false);
      var colors :=
        if cfg.updateTitleBarColors then Some(MergeColors(s.colorCustomizations, c)) else s.colorCustomizations;
      HostState(status, colors)
  }

  /** Rendering twice with the same branch and settings leaves the state the
      first render produced. */
  lemma RenderIdempotent<Re>(e: Engine<Re>, s: HostState, snapshot: Option<ColorMap>, branch: Option<string>, cfg: Config)
    ensures RenderStep(e, RenderStep(e, s, snapshot, branch, cfg), snapshot, branch, cfg) ==
            RenderStep(e, s, snapshot, branch, cfg)
  {
    if HasBranch(branch) && cfg.updateTitleBarColors {
      MergeIdempotent(s.colorCustomizations, ColorsFor(e, branch.value, cfg));
    }
  }

  /** When a render manages the colours, the map it leaves does not depend
      on an earlier render that merged or left the map alone: the last
      render's colours win and no override of the earlier one survives. */
  lemma LastRenderWins<Re>(e: Engine<Re>, s: HostState, snapshot: Option<ColorMap>,
                           b1: Option<string>, cfg1: Config, b2: Option<string>, cfg2: Config)
    requires cfg2.updateTitleBarColors
    requires cfg1.updateTitleBarColors ==> HasBranch(b1)
    ensures RenderStep(e, RenderStep(e, s, snapshot, b1, cfg1), snapshot, b2, cfg2).colorCustomizations ==
            RenderStep(e, s, snapshot, b2, cfg2).colorCustomizations
  {
    if HasBranch(b2) && cfg1.updateTitleBarColors {
      LastMergeWins(s.colorCustomizations, ColorsFor(e, b1.value, cfg1), ColorsFor(e, b2.value, cfg2));
    }
  }

  /** The status-bar item: text, tooltip, colour and whether it is shown. */
  class StatusItem {
    var text: string
    var tooltip: Option<string>
    var color: Option<string>
    var visible: bool

    function View(): StatusView
      reads this
    {
      StatusView(visible, text, tooltip, color)
    }

    /** `createStatusBarItem`: an empty, hidden item. */
    constructor ()
      ensures View() == StatusView(false, "", None, None)
    {
      text, tooltip, color, visible := "", None, None, false;
    }

    method Show()
      modifies this
      ensures View() == old(View()).(visible := true)
    {
      visible := true;
    }

    method Hide()
      modifies this
      ensures View() == old(View()).(visible := false)
    {
      visible := false;
    }
  }

  /** The state `activate` sets up: the status-bar item, the workspace's
      colour customisations and the snapshot taken of them at startup. */
  class BranchHighlighter {
    const statusItem: StatusItem
    var colorCustomizations: Option<ColorMap>
    const previousWorkbenchColors: Option<ColorMap>

    function State(): HostState
      reads this, statusItem
    {
      HostState(statusItem.View(), colorCustomizations)
    }

    /** Creates the hidden status item and snapshots the current colour
        customisations. */
    constructor (initialColors: Option<ColorMap>)
      ensures fresh(statusItem)
      ensures previousWorkbenchColors == initialColors
      ensures State() == HostState(StatusView(false, "", None, None), initialColors)
    {
      statusItem := new StatusItem();
      colorCustomizations := initialColors;
      previousWorkbenchColors := initialColors;
    }

    /** `render`: picks the repository, reads its branch and updates the
        status item and the colour customisations. */
    method Render<Re>(e: Engine<Re>, api: Option<GitApi>, activeUri: Option<string>, cfg: Config)
      modifies this, statusItem
      ensures State() == RenderStep(e, old(State()), previousWorkbenchColors, BranchOf(PickRepo(api, activeUri)), cfg)
    {
      var repo := PickRepo(api, activeUri);
      var branch := BranchOf(repo);
      if branch.None? || branch.value == "" {
        statusItem.Hide();
        if cfg.updateTitleBarColors {
          colorCustomizations := previousWorkbenchColors;
        }
        return;
      }
      var rule := MatchRule(e, branch.value, cfg.rules);
      var colors := ResolveColors(rule, cfg.defaultColors);
      if cfg.showStatusBar {
        statusItem.text := StatusTextPrefix + branch.value;
        statusItem.tooltip := Some(StatusTooltip);
        statusItem.color := Some(colors.statusFg);
        statusItem.Show();
      } else {
        statusItem.Hide();
      }
      if cfg.updateTitleBarColors {
        colorCustomizations := Some(MergeColors(colorCustomizations, colors));
      }
    }
  }
}
