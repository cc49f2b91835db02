/** The launcher of `TmmUIHelper`: `openFile` opens a media file with the
    configured player or the platform's default handler, and `browseUrl`
    opens a web address. Both are pure functions of the host, the
    configuration, the target and an oracle for the external effects; each
    returns the actions it attempted and how the call ended.
 */
module Launcher {
  import opened Effects
  import opened Plans
  import Text

  /** The host platform, as `SystemUtils` classifies it. */
  datatype Os = MacOsX | Windows | Linux | OtherOs

  /** The host: its platform and whether `Desktop.isDesktopSupported()`. */
  datatype Host = Host(os: Os, desktopSupported: bool)

  /** The two settings the launcher reads: the configured media player and
      the file types (each a leading dot and an extension) it plays. */
  datatype Settings = Settings(mediaPlayer: string, supportedFileTypes: seq<string>)

  /** A file to open: its path as given, its absolute form, and the
      extension of its file name (without the dot, empty when it has none). */
  datatype MediaFile = MediaFile(path: string, absolutePath: string, extension: string)

  /** The generic open commands tried on Linux, in this order. */
  const Starters: seq<string> := ["gnome-open", "kde-open", "xdg-open"]

  /** The type the supported-file-types list is searched for; it is taken
      from the file name as it is, without changing its case. */
  function FileType(f: MediaFile): string
  {
    "." + f.extension
  }

  /** The preferred-player branch applies. */
  predicate UsesPreferredPlayer(settings: Settings, f: MediaFile)
  {
    Text.IsNotBlank(settings.mediaPlayer) && FileType(f) in settings.supportedFileTypes
  }

  /** The command line that starts the preferred player on `abs`. */
  function PlayerArgv(os: Os, player: string, abs: string): seq<string>
  {
    if os == MacOsX then ["open", player, "--args", abs] else [player, abs]
  }

  /** The spawns of the Linux starters, each given the same target. */
  function StarterSpawns(starters: seq<string>, target: string): seq<Action>
  {
    seq(|starters|, i requires 0 <= i < |starters| => Spawn([starters[i], target]))
  }

  lemma StarterSpawnsFirst(starters: seq<string>, target: string)
    requires starters != []
    ensures StarterSpawns(starters, target)
         == [Spawn([starters[0], target])] + StarterSpawns(starters[1..], target)
  {
  }

  lemma PrefixCons(a: Action, p: seq<Action>, s: seq<Action>)
    requires IsPrefix(p, s)
    ensures IsPrefix([a] + p, [a] + s)
  {
    assert ([a] + s)[..|[a] + p|] == [a] + s[..|p|];
  }

  /** How the chain of starters ended: one spawned, all threw an
      `IOException`, or one threw something else, which escapes. */
  datatype ChainStatus = Launched | AllFailed | Aborted(at: Action, exception: Exception)

  datatype Chain = Chain(trace: seq<Action>, status: ChainStatus)

  /** The `started` flag chain: try each starter on `target` in order,
      catching `IOException` and stopping at the first spawn that returns. */
  function TryStarters(starters: seq<string>, target: string, oracle: Oracle): (c: Chain)
    ensures IsPrefix(c.trace, StarterSpawns(starters, target))
    ensures starters != [] ==> c.trace != []
    ensures forall i :: 0 <= i < |c.trace| - 1 ==> oracle(c.trace[i]) == Throws(IOException)
    ensures c.status == AllFailed <==>
              |c.trace| == |starters| && AllThrowIo(c.trace, oracle)
    ensures c.status == Launched <==> c.trace != [] && oracle(c.trace[|c.trace| - 1]) == Ok
    ensures c.status.Aborted? <==>
              c.trace != [] && oracle(c.trace[|c.trace| - 1]) == Throws(OtherException)
    ensures c.status.Aborted? ==> c.status == Aborted(c.trace[|c.trace| - 1], OtherException)
    decreases |starters|
  {
    if starters == [] then Chain([], AllFailed)
    else
      var a := Spawn([starters[0], target]);
      match oracle(a)
      case Ok =>
        var c := Chain([a], Launched);
        assert c.trace[0] == a;
        c
      case Throws(IOException) =>
        var rest := TryStarters(starters[1..], target, oracle);
        var trace := [a] + rest.trace;
        assert trace[0] == a;
        assert forall i :: 0 < i < |trace| ==> trace[i] == rest.trace[i - 1];
        AllThrowIoCons(a, rest.trace, oracle);
        StarterSpawnsFirst(starters, target);
        PrefixCons(a, rest.trace, StarterSpawns(starters[1..], target));
        Chain(trace, rest.status)
      case Throws(OtherException) =>
        var c := Chain([a], Aborted(a, OtherException));
        assert c.trace[0] == a;
        c
  }

  /** `TmmUIHelper.openFile`. */
  function OpenFile(host: Host, settings: Settings, f: MediaFile, oracle: Oracle): Run
  {
    if UsesPreferredPlayer(settings, f) then
      Commit(Spawn(PlayerArgv(host.os, settings.mediaPlayer, f.absolutePath)), oracle)
    else if host.os == Windows then
      Commit(Spawn(["explorer", f.absolutePath]), oracle)
    else if host.os == Linux then
      var c := TryStarters(Starters, f.absolutePath, oracle);
      match c.status
      case Launched => Run(c.trace, Returned)
      case Aborted(a, e) => Run(c.trace, Raised(a, e))
      case AllFailed =>
        if host.desktopSupported then
          var d := Commit(DesktopOpen(f.path), oracle);
          Run(c.trace + d.trace, d.outcome)
        else
          Run(c.trace, Returned)
    else if host.desktopSupported then
      Commit(DesktopOpen(f.path), oracle)
    else
      Run([], Unsupported)
  }

  /** `TmmUIHelper.browseUrl`. */
  function BrowseUrl(host: Host, url: string, oracle: Oracle): Run
  {
    if host.desktopSupported then
      Commit(DesktopBrowse(url), oracle)
    else if host.os == Linux then
      var c := TryStarters(Starters, url, oracle);
      match c.status
      case Aborted(a, e) => Run(c.trace, Raised(a, e))
      case _ => Run(c.trace, Returned)
    else
      Run([], Unsupported)
  }

  // The candidate lists, independent of the environment.

  /** The starters as steps whose `IOException` is swallowed. */
  function StarterSteps(starters: seq<string>, target: string): seq<Step>
  {
    seq(|starters|, i requires 0 <= i < |starters| => Step(Spawn([starters[i], target]), true))
  }

  /** What `openFile` would try, in order, before any attempt is made. */
  function OpenFilePlan(host: Host, settings: Settings, f: MediaFile): Plan
  {
    if UsesPreferredPlayer(settings, f) then
      Attempt([Step(Spawn(PlayerArgv(host.os, settings.mediaPlayer, f.absolutePath)), false)])
    else if host.os == Windows then
      Attempt([Step(Spawn(["explorer", f.absolutePath]), false)])
    else if host.os == Linux then
      Attempt(StarterSteps(Starters, f.absolutePath)
              + (if host.desktopSupported then [Step(DesktopOpen(f.path), false)] else []))
    else if host.desktopSupported then
      Attempt([Step(DesktopOpen(f.path), false)])
    else
      NoStrategy
  }

  /** What `browseUrl` would try, in order, before any attempt is made. */
  function BrowseUrlPlan(host: Host, url: string): Plan
  {
    if host.desktopSupported then Attempt([Step(DesktopBrowse(url), false)])
    else if host.os == Linux then Attempt(StarterSteps(Starters, url))
    else NoStrategy
  }

  /** How a run continues after the chain of starters, when `tail` is what
      is tried once every starter has failed. */
  function AfterChain(c: Chain, tail: Run): Run
  {
    match c.status
    case Launched => Run(c.trace, Returned)
    case Aborted(a, e) => Run(c.trace, Raised(a, e))
    case AllFailed => Run(c.trace + tail.trace, tail.outcome)
  }

  /** One swallowing step in front of `rest`: an `IOException` from its
      action moves on to `rest`, anything else ends the run there. */
  lemma RunStepsSwallowing(a: Action, rest: seq<Step>, oracle: Oracle)
    ensures RunSteps([Step(a, true)] + rest, oracle)
         == match oracle(a)
            case Ok => Run([a], Returned)
            case Throws(IOException) =>
              Run([a] + RunSteps(rest, oracle).trace, RunSteps(rest, oracle).outcome)
            case Throws(e) => Run([a], Raised(a, e))
  {
    assert ([Step(a, true)] + rest)[1..] == rest;
  }

  /** The first starter of a non-empty chain, unfolded. */
  lemma TryStartersFirst(starters: seq<string>, target: string, oracle: Oracle)
    requires starters != []
    ensures TryStarters(starters, target, oracle)
         == match oracle(Spawn([starters[0], target]))
            case Ok => Chain([Spawn([starters[0], target])], Launched)
            case Throws(IOException) =>
              Chain([Spawn([starters[0], target])] + TryStarters(starters[1..], target, oracle).trace,
                    TryStarters(starters[1..], target, oracle).status)
            case Throws(OtherException) =>
              Chain([Spawn([starters[0], target])], Aborted(Spawn([starters[0], target]), OtherException))
  {
  }

  /** The steps of a non-empty chain, split after the first. */
  lemma StarterStepsFirst(starters: seq<string>, target: string, tail: seq<Step>)
    requires starters != []
    ensures StarterSteps(starters, target) + tail
         == [Step(Spawn([starters[0], target]), true)] + (StarterSteps(starters[1..], target) + tail)
  {
    assert StarterSteps(starters, target) == [Step(Spawn([starters[0], target]), true)] + StarterSteps(starters[1..], target);
  }

  /** Putting one failed starter in front of both sides keeps them equal. */
  lemma AfterChainCons(a: Action, rest: Chain, more: Run, tail: Run)
    requires more == AfterChain(rest, tail)
    ensures Run([a] + more.trace, more.outcome) == AfterChain(Chain([a] + rest.trace, rest.status), tail)
  {
    assert [a] + (rest.trace + tail.trace) == ([a] + rest.trace) + tail.trace;
  }

  /** The `started` flag chain is the generic executor on swallowing steps. */
  lemma {:induction false} ChainIsSwallowingSteps(starters: seq<string>, target: string,
                                                  tail: seq<Step>, oracle: Oracle)
    ensures RunSteps(StarterSteps(starters, target) + tail, oracle)
         == AfterChain(TryStarters(starters, target, oracle), RunSteps(tail, oracle))
    decreases |starters|
  {
    if starters == [] {
      assert StarterSteps(starters, target) + tail == tail;
    } else {
      var a := Spawn([starters[0], target]);
      var more := StarterSteps(starters[1..], target) + tail;
      StarterStepsFirst(starters, target, tail);
      RunStepsSwallowing(a, more, oracle);
      TryStartersFirst(starters, target, oracle);
      if oracle(a) == Throws(IOException) {
        ChainIsSwallowingSteps(starters[1..], target, tail, oracle);
        AfterChainCons(a, TryStarters(starters[1..], target, oracle), RunSteps(more, oracle), RunSteps(tail, oracle));
      }
    }
  }

  /** `openFile` attempts its candidates exactly as its plan says. */
  lemma OpenFileFollowsPlan(host: Host, settings: Settings, f: MediaFile, oracle: Oracle)
    ensures OpenFile(host, settings, f, oracle) == Execute(OpenFilePlan(host, settings, f), oracle)
  {
    if !UsesPreferredPlayer(settings, f) && host.os == Linux {
      var tail := if host.desktopSupported then [Step(DesktopOpen(f.path), false)] else [];
      ChainIsSwallowingSteps(Starters, f.absolutePath, tail, oracle);
    }
  }

  /** `browseUrl` attempts its candidates exactly as its plan says. */
  lemma BrowseUrlFollowsPlan(host: Host, url: string, oracle: Oracle)
    ensures BrowseUrl(host, url, oracle) == Execute(BrowseUrlPlan(host, url), oracle)
  {
    if !host.desktopSupported && host.os == Linux {
      ChainIsSwallowingSteps(Starters, url, [], oracle);
      assert StarterSteps(Starters, url) + [] == StarterSteps(Starters, url);
    }
  }
}
