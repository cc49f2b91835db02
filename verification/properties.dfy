/** What `openFile` and `browseUrl` promise, stated over the actions they
    attempt and the way they end, for every host, configuration, target and
    environment.
 */
module LauncherProperties {
  import opened Effects
  import opened Plans
  import opened Launcher
  import Text

  /** The Linux starters' spawns on `target`, in the order they are tried. */
  function LinuxSpawns(target: string): seq<Action>
  {
    [Spawn(["gnome-open", target]), Spawn(["kde-open", target]), Spawn(["xdg-open", target])]
  }

  lemma StarterSpawnsAreLinuxSpawns(target: string)
    ensures StarterSpawns(Starters, target) == LinuxSpawns(target)
  {
  }

  /** The preferred player is used exactly when it is not blank and the
      file's type is among the supported ones. It then gets exactly one
      spawn, `open <player> --args <abs>` on Mac OS X and `<player> <abs>`
      elsewhere, whose failure escapes: nothing else, not even `Desktop`, is
      tried. Otherwise the player setting has no influence at all. */
  lemma PreferredPlayerBranch(host: Host, settings: Settings, f: MediaFile, oracle: Oracle)
    ensures Text.IsNotBlank(settings.mediaPlayer) && "." + f.extension in settings.supportedFileTypes ==>
              var argv := if host.os == MacOsX
                          then ["open", settings.mediaPlayer, "--args", f.absolutePath]
                          else [settings.mediaPlayer, f.absolutePath];
              var r := OpenFile(host, settings, f, oracle);
              && r.trace == [Spawn(argv)]
              && (r.outcome == Returned <==> oracle(Spawn(argv)) == Ok)
              && (oracle(Spawn(argv)).Throws? ==> r.outcome == Raised(Spawn(argv), oracle(Spawn(argv)).exception))
    ensures !(Text.IsNotBlank(settings.mediaPlayer) && "." + f.extension in settings.supportedFileTypes) ==>
              OpenFile(host, settings, f, oracle) == OpenFile(host, Settings("", []), f, oracle)
  {
  }

  /** On Windows, without the preferred player, the only action is spawning
      `explorer <abs>`, whose failure escapes; `Desktop` is never used. */
  lemma WindowsUsesExplorer(host: Host, settings: Settings, f: MediaFile, oracle: Oracle)
    requires host.os == Windows && !UsesPreferredPlayer(settings, f)
    ensures OpenFile(host, settings, f, oracle).trace == [Spawn(["explorer", f.absolutePath])]
    ensures OpenFile(host, settings, f, oracle).outcome == Returned
        <==> oracle(Spawn(["explorer", f.absolutePath])) == Ok
    ensures oracle(Spawn(["explorer", f.absolutePath])).Throws? ==>
              (OpenFile(host, settings, f, oracle).outcome
               == Raised(Spawn(["explorer", f.absolutePath]), oracle(Spawn(["explorer", f.absolutePath])).exception))
  {
  }

  /** The starter chain on `target`: starter `i` is tried exactly when every
      earlier one threw an `IOException`; the first spawn that returns ends
      the chain; any other exception ends it and escapes. */
  lemma {:induction false} ChainOrder(target: string, oracle: Oracle)
    ensures var c := TryStarters(Starters, target, oracle);
            forall i :: 0 <= i < 3 ==> (i < |c.trace| <==> AllThrowIo(LinuxSpawns(target)[..i], oracle))
    ensures var c := TryStarters(Starters, target, oracle);
            forall i :: 0 <= i < |c.trace| ==> c.trace[i] == LinuxSpawns(target)[i]
    ensures var c := TryStarters(Starters, target, oracle);
            forall i :: 0 <= i < |c.trace| && oracle(c.trace[i]) == Ok ==>
              i == |c.trace| - 1 && c.status == Launched
    ensures var c := TryStarters(Starters, target, oracle);
            forall i :: 0 <= i < |c.trace| && oracle(c.trace[i]) == Throws(OtherException) ==>
              i == |c.trace| - 1 && c.status == Aborted(c.trace[i], OtherException)
  {
    var c := TryStarters(Starters, target, oracle);
    var spawns := LinuxSpawns(target);
    StarterSpawnsAreLinuxSpawns(target);
    assert c.trace == spawns[..|c.trace|];
    forall i | 0 <= i < 3
      ensures i < |c.trace| <==> AllThrowIo(spawns[..i], oracle)
    {
      if i < |c.trace| {
        forall j | 0 <= j < i
          ensures oracle(spawns[..i][j]) == Throws(IOException)
        {
          assert spawns[..i][j] == c.trace[j];
        }
      } else {
        var last := |c.trace| - 1;
        assert oracle(c.trace[last]) != Throws(IOException);
        assert spawns[..i][last] == c.trace[last];
      }
    }
  }

  /** On Linux, without the preferred player, the file is handed to the
      starters in order as `ChainOrder` says. `Desktop.open` is attempted
      only after all three threw an `IOException`, and then exactly when
      `Desktop` is supported; if it is not, the call returns normally
      although nothing was opened. It never gives up with `Unsupported`. */
  lemma LinuxOpensWithStarters(host: Host, settings: Settings, f: MediaFile, oracle: Oracle)
    requires host.os == Linux && !UsesPreferredPlayer(settings, f)
    ensures var r := OpenFile(host, settings, f, oracle);
            IsPrefix(TryStarters(Starters, f.absolutePath, oracle).trace, r.trace)
    ensures (DesktopOpen(f.path) in OpenFile(host, settings, f, oracle).trace)
        <==> host.desktopSupported && AllThrowIo(LinuxSpawns(f.absolutePath), oracle)
    ensures AllThrowIo(LinuxSpawns(f.absolutePath), oracle) ==>
              (OpenFile(host, settings, f, oracle)
               == if host.desktopSupported
                  then Run(LinuxSpawns(f.absolutePath) + [DesktopOpen(f.path)],
                           match oracle(DesktopOpen(f.path))
                           case Ok => Returned
                           case Throws(e) => Raised(DesktopOpen(f.path), e))
                  else Run(LinuxSpawns(f.absolutePath), Returned))
    ensures var c := TryStarters(Starters, f.absolutePath, oracle);
            c.status != AllFailed ==>
              (OpenFile(host, settings, f, oracle)
               == Run(c.trace, if c.status == Launched then Returned
                               else Raised(c.status.at, c.status.exception)))
    ensures !OpenFile(host, settings, f, oracle).outcome.Unsupported?
  {
    var c := TryStarters(Starters, f.absolutePath, oracle);
    var spawns := LinuxSpawns(f.absolutePath);
    StarterSpawnsAreLinuxSpawns(f.absolutePath);
    var r := OpenFile(host, settings, f, oracle);
    if c.status == AllFailed {
      assert c.trace == spawns;
    } else {
      assert DesktopOpen(f.path) !in c.trace by {
        assert forall i :: 0 <= i < |c.trace| ==> c.trace[i] == spawns[i];
      }
      var last := |c.trace| - 1;
      assert c.trace[last] == spawns[last];
      assert oracle(spawns[last]) != Throws(IOException);
    }
  }

  /** On Mac OS X and other platforms, without the preferred player, the
      only possible action is `Desktop.open`: it is used when `Desktop` is
      supported and its failure escapes; otherwise the call throws
      `UnsupportedOperationException` having attempted nothing. */
  lemma OtherPlatformsUseDesktop(host: Host, settings: Settings, f: MediaFile, oracle: Oracle)
    requires (host.os == MacOsX || host.os == OtherOs) && !UsesPreferredPlayer(settings, f)
    ensures host.desktopSupported ==>
              && OpenFile(host, settings, f, oracle).trace == [DesktopOpen(f.path)]
              && (OpenFile(host, settings, f, oracle).outcome == Returned <==> oracle(DesktopOpen(f.path)) == Ok)
              && (oracle(DesktopOpen(f.path)).Throws? ==>
                    OpenFile(host, settings, f, oracle).outcome
                    == Raised(DesktopOpen(f.path), oracle(DesktopOpen(f.path)).exception))
    ensures !host.desktopSupported ==> OpenFile(host, settings, f, oracle) == Run([], Unsupported)
  {
  }

  /** `browseUrl` consults `Desktop` before the platform: when it is
      supported, on every platform, exactly one `Desktop.browse` is made and
      no process is spawned; its failure escapes. */
  lemma BrowseUsesDesktopFirst(host: Host, url: string, oracle: Oracle)
    requires host.desktopSupported
    ensures BrowseUrl(host, url, oracle).trace == [DesktopBrowse(url)]
    ensures BrowseUrl(host, url, oracle).outcome == Returned <==> oracle(DesktopBrowse(url)) == Ok
    ensures oracle(DesktopBrowse(url)).Throws? ==>
              (BrowseUrl(host, url, oracle).outcome
               == Raised(DesktopBrowse(url), oracle(DesktopBrowse(url)).exception))
  {
  }

  /** `browseUrl` without `Desktop`: on Linux the starters are tried on the
      URL in order, the call never gives up with `Unsupported`, and it
      returns normally even when all three threw an `IOException`; on every
      other platform it throws `UnsupportedOperationException` having
      attempted nothing. */
  lemma BrowseWithoutDesktop(host: Host, url: string, oracle: Oracle)
    requires !host.desktopSupported
    ensures host.os == Linux ==>
              && BrowseUrl(host, url, oracle).trace == TryStarters(Starters, url, oracle).trace
              && (BrowseUrl(host, url, oracle).outcome.Raised? <==>
                    exists i :: 0 <= i < 3 && oracle(LinuxSpawns(url)[i]) == Throws(OtherException)
                              && AllThrowIo(LinuxSpawns(url)[..i], oracle))
              && !BrowseUrl(host, url, oracle).outcome.Unsupported?
              && (AllThrowIo(LinuxSpawns(url), oracle) ==> BrowseUrl(host, url, oracle) == Run(LinuxSpawns(url), Returned))
    ensures host.os != Linux ==> BrowseUrl(host, url, oracle) == Run([], Unsupported)
  {
    if host.os == Linux {
      var c := TryStarters(Starters, url, oracle);
      var spawns := LinuxSpawns(url);
      ChainOrder(url, oracle);
      if c.status.Aborted? {
        var i := |c.trace| - 1;
        assert oracle(spawns[i]) == Throws(OtherException) && AllThrowIo(spawns[..i], oracle);
      }
      if AllThrowIo(spawns, oracle) {
        assert spawns[..3] == spawns;
        assert |c.trace| == 3;
        StarterSpawnsAreLinuxSpawns(url);
      }
    }
  }

  /** A prefix of a list without repetitions has none either. */
  lemma DistinctPrefix(p: seq<Action>, s: seq<Action>)
    requires IsPrefix(p, s) && Distinct(s)
    ensures Distinct(p)
  {
    assert forall i :: 0 <= i < |p| ==> p[i] == s[i];
  }

  /** `openFile`'s candidates are all different and there is at least one
      unless there is no strategy. */
  lemma OpenFilePlanWellFormed(host: Host, settings: Settings, f: MediaFile)
    ensures var plan := OpenFilePlan(host, settings, f);
            plan.Attempt? ==> plan.steps != [] && Distinct(Actions(plan.steps))
  {
    var plan := OpenFilePlan(host, settings, f);
    if plan.Attempt? && host.os == Linux && !UsesPreferredPlayer(settings, f) {
      var acts := Actions(plan.steps);
      var spawns := LinuxSpawns(f.absolutePath);
      assert acts[..3] == spawns;
      assert host.desktopSupported ==> acts == spawns + [DesktopOpen(f.path)];
      assert !host.desktopSupported ==> acts == spawns;
    }
  }

  /** Every run of `openFile` is consistent with the environment, attempts
      no action twice, and ends with `Unsupported` exactly when it attempted
      nothing. */
  lemma OpenFileWellFormed(host: Host, settings: Settings, f: MediaFile, oracle: Oracle)
    ensures Consistent(OpenFile(host, settings, f, oracle), oracle)
    ensures Distinct(OpenFile(host, settings, f, oracle).trace)
    ensures OpenFile(host, settings, f, oracle).trace == []
        <==> OpenFile(host, settings, f, oracle).outcome == Unsupported
  {
    OpenFileFollowsPlan(host, settings, f, oracle);
    var plan := OpenFilePlan(host, settings, f);
    OpenFilePlanWellFormed(host, settings, f);
    if plan.Attempt? {
      DistinctPrefix(Execute(plan, oracle).trace, Actions(plan.steps));
    }
  }

  /** `browseUrl`'s candidates are all different and there is at least one
      unless there is no strategy. */
  lemma BrowseUrlPlanWellFormed(host: Host, url: string)
    ensures var plan := BrowseUrlPlan(host, url);
            plan.Attempt? ==> plan.steps != [] && Distinct(Actions(plan.steps))
  {
    var plan := BrowseUrlPlan(host, url);
    if plan.Attempt? && !host.desktopSupported {
      assert Actions(plan.steps) == LinuxSpawns(url);
    }
  }

  /** Every run of `browseUrl` is consistent with the environment, attempts
      no action twice, and ends with `Unsupported` exactly when it attempted
      nothing. */
  lemma BrowseUrlWellFormed(host: Host, url: string, oracle: Oracle)
    ensures Consistent(BrowseUrl(host, url, oracle), oracle)
    ensures Distinct(BrowseUrl(host, url, oracle).trace)
    ensures BrowseUrl(host, url, oracle).trace == [] <==> BrowseUrl(host, url, oracle).outcome == Unsupported
  {
    BrowseUrlFollowsPlan(host, url, oracle);
    var plan := BrowseUrlPlan(host, url);
    BrowseUrlPlanWellFormed(host, url);
    if plan.Attempt? {
      DistinctPrefix(Execute(plan, oracle).trace, Actions(plan.steps));
    }
  }

  /** The choice of candidates does not depend on the environment: two
      calls with the same arguments attempt the same candidates in the same
      order, one possibly stopping earlier; and a call's run is fixed by the
      environment's answers to the actions it attempted. */
  lemma OpenFileIsDeterministic(host: Host, settings: Settings, f: MediaFile, o1: Oracle, o2: Oracle)
    ensures IsPrefix(OpenFile(host, settings, f, o1).trace, OpenFile(host, settings, f, o2).trace)
         || IsPrefix(OpenFile(host, settings, f, o2).trace, OpenFile(host, settings, f, o1).trace)
    ensures (forall a :: a in OpenFile(host, settings, f, o1).trace ==> o1(a) == o2(a)) ==>
              OpenFile(host, settings, f, o1) == OpenFile(host, settings, f, o2)
  {
    OpenFileFollowsPlan(host, settings, f, o1);
    OpenFileFollowsPlan(host, settings, f, o2);
    var plan := OpenFilePlan(host, settings, f);
    CandidateOrderIsFixed(plan, o1, o2);
    var t := Execute(plan, o1).trace;
    if plan.Attempt? && forall a :: a in t ==> o1(a) == o2(a) {
      assert forall i :: 0 <= i < |t| ==> o1(t[i]) == o2(t[i]);
      OnlyAttemptedActionsMatter(plan.steps, o1, o2);
    }
  }

  /** The same for `browseUrl`: the candidates and their order do not
      depend on the environment, and a call's run is fixed by the
      environment's answers to the actions it attempted. */
  lemma BrowseUrlIsDeterministic(host: Host, url: string, o1: Oracle, o2: Oracle)
    ensures IsPrefix(BrowseUrl(host, url, o1).trace, BrowseUrl(host, url, o2).trace)
         || IsPrefix(BrowseUrl(host, url, o2).trace, BrowseUrl(host, url, o1).trace)
    ensures (forall a :: a in BrowseUrl(host, url, o1).trace ==> o1(a) == o2(a)) ==>
              BrowseUrl(host, url, o1) == BrowseUrl(host, url, o2)
  {
    BrowseUrlFollowsPlan(host, url, o1);
    BrowseUrlFollowsPlan(host, url, o2);
    var plan := BrowseUrlPlan(host, url);
    CandidateOrderIsFixed(plan, o1, o2);
    var t := Execute(plan, o1).trace;
    if plan.Attempt? && forall a :: a in t ==> o1(a) == o2(a) {
      assert forall i :: 0 <= i < |t| ==> o1(t[i]) == o2(t[i]);
      OnlyAttemptedActionsMatter(plan.steps, o1, o2);
    }
  }
}
