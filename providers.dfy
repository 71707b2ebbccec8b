/** Providers: the switch that installs the telescope hook into the logger
    once, and only when the pipeline is open (debug mode). */
module Bootstrap {

  /** The hostname label SetLog gives the hook. */
  function HookHostname(osHostname: string): string
  {
    "home-server@" + osHostname
  }

  class Providers {
    var isOpen: bool
    var init: bool
    /** Hostname labels of the hooks added to the logger, in order. */
    var installedHooks: seq<string>

    /** A hook is installed exactly when `init` has been set. */
    ghost predicate Valid()
      reads this
    {
      |installedHooks| == if init then 1 else 0
    }

    constructor ()
      ensures Valid() && !isOpen && !init && installedHooks == []
    {
      isOpen, init, installedHooks := false, false, [];
    }

    /** Init opens the pipeline when the application runs in debug mode. */
    method Init(isDebug: bool)
      modifies this`isOpen
      ensures isOpen == (old(isOpen) || isDebug)
    {
      if isDebug {
        isOpen := true;
      }
    }

    /** Boot runs SetLog the first time it is called on an open provider. */
    method Boot(osHostname: string)
      requires Valid()
      modifies this`init, this`installedHooks
      ensures Valid()
      ensures init == (old(init) || isOpen)
      ensures installedHooks == old(installedHooks) +
        (if isOpen && !old(init) then [HookHostname(osHostname)] else [])
    {
      if isOpen && !init {
        init := true;
        SetLog(osHostname);
      }
    }

    /** SetLog adds one hook, labelled with this host, to the logger. */
    method SetLog(osHostname: string)
      modifies this`installedHooks
      ensures installedHooks == old(installedHooks) + [HookHostname(osHostname)]
    {
      installedHooks := installedHooks + [HookHostname(osHostname)];
    }

    /** Whether Init opened the telescope. */
    function IsEnable(): bool
      reads this
    {
      isOpen
    }
  }

  /** Booting twice installs at most one hook, and one exactly when debug
      mode opened the pipeline, which is also what IsEnable reports. */
  method BootTwice(isDebug: bool, osHostname: string) returns (hooks: seq<string>, enabled: bool)
    ensures hooks == if isDebug then [HookHostname(osHostname)] else []
    ensures enabled == isDebug && (enabled <==> hooks != [])
  {
    var p := new Providers();
    p.Init(isDebug);
    p.Boot(osHostname);
    p.Boot(osHostname);
    hooks := p.installedHooks;
    enabled := p.IsEnable();
  }
}
