# Launcher model of tinyMediaManager's `TmmUIHelper`

This project models how tinyMediaManager hands a media file or a web address
to the operating system. Two operations are covered:

- `openFile` picks a way to open a file. It uses the configured media player
  when that player supports the file's type. Otherwise it uses `explorer` on
  Windows, and on Linux it tries the `gnome-open`, `kde-open` and `xdg-open`
  starters in turn. `Desktop.open` is the last resort.
- `browseUrl` uses `Desktop.browse` when the desktop integration is
  supported. Otherwise it tries the Linux starters, or it throws
  `UnsupportedOperationException`.

The real effects are `Runtime.exec`, `Desktop.open` and `Desktop.browse`.
The model does not perform them. An *oracle* says, for every action, whether
the attempt returns, throws an `IOException`, or throws some other
exception. Each operation is a pure function of the host (its platform and
whether `Desktop` is supported), the two settings, the target and the
oracle. It returns a `Run`: the attempted actions in order (the *trace*) and
how the call ended. A call can return normally, let the exception of one
attempted action escape, or throw `UnsupportedOperationException` itself.

Modules:

- `Effects` (effects.dfy) holds actions, responses, outcomes and runs. It
  also defines `Consistent`, the facts every run satisfies whatever the
  environment.
- `Text` (text.dfy) holds `StringUtils.isNotBlank`, written over Java's
  `Character.isWhitespace`.
- `Plans` (plans.dfy) is a reference semantics that ignores the code's
  control flow. A *plan* is the ordered candidate list, fixed before any
  attempt is made. Each step says whether its `IOException` is swallowed.
  `RunSteps` and `Execute` run a plan against an oracle.
- `Launcher` (launcher.dfy) models `openFile` and `browseUrl` branch for
  branch. `TryStarters` models the three try/catch blocks driven by the
  `started` flag. Lemmas prove that both operations equal running their
  plan.
- `LauncherProperties` (properties.dfy) holds the promised behaviour, one
  lemma per branch, plus well-formedness and determinism.

Three details of the code are easy to miss:

- The file type is `"."` plus the extension exactly as it appears in the
  file name (line 98). Nothing lowercases it, so `.MKV` does not match a
  supported `.mkv`.
- On Linux, when all three starters throw an `IOException` and `Desktop` is
  unsupported, `openFile` returns normally although nothing was opened
  (lines 142-145). `browseUrl` without `Desktop` does the same after its
  chain (lines 159-186). Neither throws `UnsupportedOperationException`
  there.
- Inside the Linux chain only `IOException` is caught (lines 121, 129 and
  138, and 166, 174 and 183). Any other exception from a spawn escapes at
  once, and so does every failure of `Desktop.open` and `Desktop.browse`.

## Model

| member | source | states |
|---|---|---|
| `Launcher.TryStarters` | src/main/java/org/tinymediamanager/ui/TmmUIHelper.java:114-140 | The starters are tried in order on the same target, and the attempts form a prefix of that list. Every attempt but the last threw an `IOException`. The chain spawned something exactly when the last attempt returned. It failed completely exactly when all starters were tried and all threw an `IOException`. It was aborted exactly when the last attempt threw another exception, which is the one reported |
| `Plans.RunSteps` | src/main/java/org/tinymediamanager/ui/TmmUIHelper.java:114-145 | Candidates are attempted in order until one returns, throws an exception its step does not swallow, or the list runs out. The trace is the shortest prefix that ends in such a stop, or the whole list. The call raises exactly when the stopping attempt threw, and then it raises that attempt's exception |
| `Plans.Execute` | src/main/java/org/tinymediamanager/ui/TmmUIHelper.java:146-152 | Every run is consistent with the environment. A run gives up with `Unsupported` exactly when there is no candidate strategy, and the trace is a prefix of the plan |
| `Plans.OnlyAttemptedActionsMatter` | src/main/java/org/tinymediamanager/ui/TmmUIHelper.java:114-145 | Two environments that answer the attempted actions alike produce the same run |
| `Plans.CandidateOrderIsFixed` | src/main/java/org/tinymediamanager/ui/TmmUIHelper.java:97-153 | Under any two environments, one trace of a plan is a prefix of the other, so the candidate order never depends on spawn results |
| `Launcher.ChainIsSwallowingSteps` | src/main/java/org/tinymediamanager/ui/TmmUIHelper.java:114-145 | The `started`-flag chain followed by a fallback behaves like running swallowing steps for the starters followed by the fallback's steps |
| `Launcher.OpenFileFollowsPlan` | src/main/java/org/tinymediamanager/ui/TmmUIHelper.java:97-153 | For every input and environment, `openFile` equals running its oracle-free plan. The plan is the preferred player's spawn, or `explorer`, or the three starters then `Desktop.open` if supported, or `Desktop.open`, or no strategy |
| `Launcher.BrowseUrlFollowsPlan` | src/main/java/org/tinymediamanager/ui/TmmUIHelper.java:155-190 | For every input and environment, `browseUrl` equals running its plan. The plan is `Desktop.browse`, or the three starters on the URL, or no strategy |
| `LauncherProperties.PreferredPlayerBranch` | src/main/java/org/tinymediamanager/ui/TmmUIHelper.java:98-108 | When the player is not blank and `"." + extension` is a supported type, the whole trace is one spawn: `open player --args abs` on Mac OS X, `player abs` elsewhere. Its failure escapes, and no other candidate or `Desktop` call is made, on any platform. In every other case the player setting has no influence on the run |
| `LauncherProperties.WindowsUsesExplorer` | src/main/java/org/tinymediamanager/ui/TmmUIHelper.java:109-113 | On Windows without the preferred player, the trace is exactly `explorer abs`. The call returns exactly when that spawn does, and otherwise raises the spawn's exception. `Desktop` is never used |
| `LauncherProperties.ChainOrder` | src/main/java/org/tinymediamanager/ui/TmmUIHelper.java:114-140 | `gnome-open`, `kde-open`, `xdg-open` are tried in that order. Starter i is tried exactly when every earlier one threw an `IOException`. A returning spawn is the last attempt and the chain counts as launched. A non-IO exception is the last attempt and aborts the chain |
| `LauncherProperties.LinuxOpensWithStarters` | src/main/java/org/tinymediamanager/ui/TmmUIHelper.java:114-145 | On Linux, `Desktop.open` is attempted exactly when all three starters threw an `IOException` and `Desktop` is supported. With all starters failed, the run is the three spawns followed by `Desktop.open` and its result, or the three spawns and a normal return when `Desktop` is unsupported. When the chain stops early, the run is the chain's trace, ending with a normal return after a starter that spawned or with the escaping exception of the starter that aborted it. The call never ends with `Unsupported` |
| `LauncherProperties.OtherPlatformsUseDesktop` | src/main/java/org/tinymediamanager/ui/TmmUIHelper.java:146-152 | On Mac OS X and other platforms without the preferred player, the trace is exactly `Desktop.open` when `Desktop` is supported, and the call returns exactly when that call does, and otherwise raises that call's exception. When `Desktop` is unsupported, nothing is attempted and the call throws `Unsupported` |
| `LauncherProperties.BrowseUsesDesktopFirst` | src/main/java/org/tinymediamanager/ui/TmmUIHelper.java:156-158 | With `Desktop` supported, on every platform, the trace is exactly one `Desktop.browse` and no spawn. The call returns exactly when that call does, and otherwise raises that call's exception |
| `LauncherProperties.BrowseWithoutDesktop` | src/main/java/org/tinymediamanager/ui/TmmUIHelper.java:159-189 | Without `Desktop`, on Linux, the starters are tried on the URL. The call raises exactly when some starter threw a non-IO exception after all earlier ones threw an `IOException`. It returns normally after three `IOException`s and never ends with `Unsupported`. On other platforms nothing is attempted and the call throws `Unsupported` |
| `LauncherProperties.OpenFileWellFormed` | src/main/java/org/tinymediamanager/ui/TmmUIHelper.java:97-153 | Every `openFile` run is consistent with the environment and attempts no action twice. It ends with `Unsupported` exactly when it attempted nothing |
| `LauncherProperties.BrowseUrlWellFormed` | src/main/java/org/tinymediamanager/ui/TmmUIHelper.java:155-190 | Every `browseUrl` run is consistent with the environment and attempts no action twice. It ends with `Unsupported` exactly when it attempted nothing |
| `LauncherProperties.OpenFileIsDeterministic` | src/main/java/org/tinymediamanager/ui/TmmUIHelper.java:97-153 | Two `openFile` calls with the same arguments attempt the same candidates in the same order, one possibly stopping earlier. A call's run is fixed by the environment's answers to the actions it attempted |
| `LauncherProperties.BrowseUrlIsDeterministic` | src/main/java/org/tinymediamanager/ui/TmmUIHelper.java:155-190 | Two `browseUrl` calls with the same arguments attempt the same candidates in the same order, one possibly stopping earlier. A call's run is fixed by the environment's answers to the actions it attempted |

## Left out

- The file and directory dialogs (`selectDirectory`, `selectFile`, `saveFile`, `openJFileChooser`) and the remembered last directory are left out. They are driven by user interaction with a native chooser.
- `getColumnWidthForIcon` is left out. It is floating-point arithmetic over a Swing icon.
- What `Runtime.exec`, `Desktop.open` and `Desktop.browse` actually do, and what the spawned processes do afterwards, is not modelled. Only the response to each attempt is, as an oracle. The oracle answers each action the same way every time. No call attempts an action twice, so this loses nothing.
- The extension of the file name (`FilenameUtils.getExtension`) and the absolute path (`toAbsolutePath`) are inputs. They are not computed.
- The settings are plain values read once per call. A media player of `null` is not represented; it behaves like a blank player.
- Parsing the URL with `new URI(url)` is not modelled. A malformed address throws before `Desktop.browse` is reached. The model folds that case into the oracle's answer for `DesktopBrowse(url)`.
- `Text.IsWhitespace` follows `Character.isWhitespace` of Java 7 and 8, which counts U+180E. Later Java versions no longer do.
