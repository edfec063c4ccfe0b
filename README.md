# Branch Highlighter core, modelled in Dafny

The extension reads the current Git branch of the workspace, picks the first
configured rule whose regular expression matches the branch name, resolves the
status-bar and title-bar colours from that rule and the default colours, and
writes them into the workspace setting `workbench.colorCustomizations`. When
there is no branch it hides its status-bar item and restores the colour
customisations it saw at startup.

This project models that pipeline:

- `wrappers.dfy` (`Wrappers`): `Option`, standing for JavaScript's `undefined`.
- `rules.dfy` (`Rules`): the `Rule` record, an abstract regular-expression
  `Engine` (compile a pattern, possibly failing; test a compiled expression),
  the first-match specification `FirstMatch` and `MatchRule`, the loop of
  `matchRule` proved against it.
- `colors.dfy` (`Colors`): JavaScript `||` truthiness on colour properties,
  the four-slot colour resolution and the merge that builds the new
  colour-customisation map.
- `repos.dfy` (`Repos`): the repository choice of `pickRepoForActiveEditor`
  with the host lookup as a function value, and reading `state.HEAD.name`.
- `render.dfy` (`Render`): the settings record, the `RenderStep` specification
  of one render, lemmas about repeated renders, and the imperative model:
  class `StatusItem` (text, tooltip, colour, visibility) and class
  `BranchHighlighter` (the status item, the colour-customisation setting and
  the startup snapshot) whose `Render` method is proved to leave exactly the
  state `RenderStep` describes.

Two behaviours of `render` to note: the snapshot that a render with no branch
restores is read once, at startup (src/extension.js:77), and never refreshed. The status item's text, tooltip and colour are
written only when `showStatusBar` is on (src/extension.js:99-106); otherwise the item is only hidden and
keeps its earlier text.

## Model

| member | source | states |
|---|---|---|
| `Rules.FirstMatch` | src/extension.js:35-46 | the result is absent exactly when no rule compiles and matches; a present result is some rule `k` of the list that matches while every rule before `k` fails to compile or does not match |
| `Rules.FirstMatchAt` | src/extension.js:36-41 | conversely, if rule `k` matches and no earlier rule does, the search returns rule `k`: the first match is the unique answer |
| `Rules.FirstMatchIsMember` | src/extension.js:36-41 | any returned rule is an element of the input list |
| `Rules.FirstMatchAppend` | src/extension.js:36-46 | searching `a + b` returns the match in `a` when there is one and otherwise the result of searching `b` |
| `Rules.InvalidRuleSkipped` | src/extension.js:37-44 | inserting a rule whose pattern fails to compile anywhere in the list never changes the result: it is skipped and the search goes on past it |
| `Rules.MatchRule` | src/extension.js:35-47 | the loop with early return computes exactly the first-match result, with no state change |
| `Colors.ResolveColors` | src/extension.js:94-97 | each of the four slots independently takes the truthy slot-specific rule property, else the truthy generic `bg`/`fg`, else the default; absent and empty-string properties count as missing |
| `Colors.NoRuleUsesDefaults` | src/extension.js:94-97 | with no matched rule the two backgrounds are `defaultColors.bg` and the two foregrounds `defaultColors.fg` |
| `Colors.GenericColorsPaintBothSurfaces` | src/extension.js:94-97 | a rule with only `bg` set paints both backgrounds with it and leaves both foregrounds at the default |
| `Colors.MergeColors` | src/extension.js:51-63 | the merged map has the old keys plus the eight fixed keys; the three status backgrounds hold `statusBg`, the status foreground `statusFg`, both title backgrounds `titleBg` and both title foregrounds `titleFg`; every other existing key keeps its value; a missing map counts as empty |
| `Colors.MergeForgetsFixedKeys` | src/extension.js:52-63 | two maps that agree outside the eight fixed keys merge to the same map |
| `Colors.MergeIdempotent` | src/extension.js:51-63 | merging the same colours into a merged map yields that map again |
| `Colors.LastMergeWins` | src/extension.js:51-63 | merging `c1` then `c2` gives the same map as merging `c2` alone |
| `Repos.PickRepo` | src/extension.js:13-21 | none without an API; the active document's repository when the lookup finds one; otherwise the first repository, and none only when the list is empty |
| `Repos.BranchOf` | src/extension.js:84 | no repository gives no branch; a present repository gives exactly its HEAD name, which may itself be absent |
| `Render.DefaultConfigPaintsDefaults` | src/extension.js:26-30 | with the default settings (no rules, default colours `#444444`/`#ffffff`) every branch resolves to `#444444` backgrounds and `#ffffff` foregrounds |
| `Render.RenderStep` | src/extension.js:84-115 | no branch (absent or empty): the item is hidden and the colour map becomes the startup snapshot only when `updateTitleBarColors`; with a branch: the item shows `"$(lightbulb) " + branch`, the tooltip and `statusFg` when `showStatusBar`, and is only hidden otherwise; the colour map is replaced by the merge when `updateTitleBarColors` and untouched otherwise |
| `Render.RenderIdempotent` | src/extension.js:79-116 | rendering twice with the same branch and settings leaves the state of the first render |
| `Render.LastRenderWins` | src/extension.js:86-115 | when the second render manages colours and the first one merged or left the map alone, the resulting map is the one the second render alone would produce |
| `Render.StatusItem.constructor` | src/extension.js:74 | a new status item is hidden, with empty text and no tooltip or colour |
| `Render.StatusItem.Show` | src/extension.js:103 | showing changes only the visibility, to shown |
| `Render.StatusItem.Hide` | src/extension.js:87 | hiding changes only the visibility, to hidden |
| `Render.BranchHighlighter.constructor` | src/extension.js:74-77 | activation creates a hidden status item and takes the snapshot equal to the current colour customisations |
| `Render.BranchHighlighter.Render` | src/extension.js:79-116 | the status item and colour map after `render` are exactly `RenderStep` of the state before, the startup snapshot and the branch of the picked repository |

## Left out

- Regular expressions: `new RegExp` and `test` are the two functions of an `Engine` given as a parameter; their semantics (section 22.2 of ECMA-262) is not modelled, so the concrete branch scenarios with `^feature/` and `^release/` patterns are not stated.
- `getGitApi`: extension discovery and promise-based activation are host calls; the model takes the API as an optional value.
- `getConfig`: reading the settings store is a host call; the settings are a `Config` value and `DefaultConfig` holds the defaults the code supplies. The `debug` setting is read but never used by `render`.
- `config.update`, `ConfigurationTarget.Workspace` and the `await`s: the model writes the resulting map value directly. It does not distinguish the effective setting that `get` returns from the workspace-level value that `update` writes.
- Event wiring, the duplicate repository listeners and the 3-second polling timer: concurrency and event plumbing; each of them only calls `render`, whose repeated effect `RenderIdempotent` and `LastRenderWins` describe.
- The commands `copyBranch`, `debug` and `testRegex`: clipboard, notifications and output channels over the same functions.
- `deactivate`: it does nothing.
- Colour values are strings. Non-string JSON values in the existing colour map and default colours that are missing are not modelled; empty default colours are passed through, as the code does.
- Rules.MatchRule: every rule entry is an object whose `pattern` is a string or missing; a missing `pattern` compiles as the empty expression, which matches every branch (`PatternSource`). Not modelled: a primitive entry (a string, number or boolean), whose `pattern` is `undefined`, so it compiles to the empty expression and matches every branch; a `null` entry, whose property access throws inside the `try` and is skipped; and a `rules` setting that is not iterable, where the `for...of` throws outside the `try` and `render` rejects.
- Repos.PickRepo: `repositories` is always a list; an API whose `repositories` property is missing is not modelled.
