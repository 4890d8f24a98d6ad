/**
 Runs of the sandbox repository. Its mutex makes each of its calls one step; between two of them the rest of the
 daemon may do anything to links and monitors, and to the sandboxes that are registered, but registers none and
 touches no file. Any part of a call may fail.
 */
module RepositoryRuns {
  import opened Wrappers
  import opened Host
  import opened SandboxSafety

  datatype Call =
    | Create(name: string, plan: seq<bool>)
    | Destroy(name: string, plan: seq<bool>)
    | Load(names: seq<string>, plan: seq<bool>)   // the walk over the directory, in its order
    | Elsewhere(links: Links, monitors: set<string>, sandboxes: map<string, Sandbox>)
    | Reboot                                      // the daemon starts again, its repository empty

  ghost predicate Enabled(w: World, c: Call) {
    match c
    case Load(names, _) => Walks(w, names)
    case Elsewhere(_, _, sandboxes) => sandboxes.Keys == w.sandboxes.Keys
    case _ => true
  }

  ghost function Apply(w: World, c: Call): World
    requires Enabled(w, c)
  {
    match c
    case Create(name, plan) => CreateSandbox(w.(plan := plan), name).w
    case Destroy(name, plan) => DestroySandbox(w.(plan := plan), name).w
    case Load(names, plan) => LoadAll(w.(plan := plan), names).w
    case Elsewhere(links, monitors, sandboxes) => w.(links := links, monitors := monitors, sandboxes := sandboxes)
    case Reboot => w.(sandboxes := map[], monitors := {})
  }

  /** A run from a daemon that has just started; None if some call was not enabled. */
  ghost function Run(start: World, calls: seq<Call>): Option<World>
    requires start.sandboxes == map[]
  {
    if calls == [] then Some(start)
    else
      var before := Run(start, calls[..|calls| - 1]);
      if before.Some? && Enabled(before.value, calls[|calls| - 1])
      then Some(Apply(before.value, calls[|calls| - 1])) else None
  }

  lemma CreateKeepsFiles(w: World, name: string)
    requires RegisteredHaveFiles(w)
    ensures RegisteredHaveFiles(CreateSandbox(w, name).w)
  {
    hide CreateSandbox;
    CreateSandboxFrame(w, name);
  }

  lemma DestroyKeepsFiles(w: World, name: string)
    requires RegisteredHaveFiles(w)
    ensures RegisteredHaveFiles(DestroySandbox(w, name).w)
  {
    hide Fallible;
    if name in w.sandboxes {
      var torn := Teardown(w, name).w;
      FallibleFrame(torn);
      FallibleFrame(Fallible(torn).w.(files := torn.files[name := Bare]));
    }
  }

  /** A load registers files only; one that gets through registers them all. */
  lemma {:induction false} LoadRegisters(w: World, names: seq<string>)
    ensures var o := LoadAll(w, names);
      && o.w.files == w.files
      && w.sandboxes.Keys <= o.w.sandboxes.Keys
      && (forall name :: name in o.w.sandboxes ==> name in w.sandboxes || name in w.files)
      && (o.Ok() ==> forall name :: name in names ==> name in o.w.sandboxes)
    decreases names
  {
    if names != [] && names[0] in w.files {
      FallibleFrame(w);
      var got := Fallible(w);
      if got.Ok() {
        LoadRegisters(got.w.(sandboxes := w.sandboxes[names[0] := Sandbox(false, false)]), names[1..]);
      }
    }
  }

  lemma ApplyKeepsFiles(w: World, c: Call)
    requires RegisteredHaveFiles(w) && Enabled(w, c)
    ensures RegisteredHaveFiles(Apply(w, c))
  {
    hide CreateSandbox, DestroySandbox, LoadAll;
    match c
    case Create(name, plan) => CreateKeepsFiles(w.(plan := plan), name);
    case Destroy(name, plan) => DestroyKeepsFiles(w.(plan := plan), name);
    case Load(names, plan) => LoadRegisters(w.(plan := plan), names);
    case Elsewhere(_, _, _) =>
    case Reboot =>
  }

  /** Between any two repository calls of any run, every registered name has its file. */
  lemma {:induction false} RegisteredAlwaysHaveFiles(start: World, calls: seq<Call>)
    requires start.sandboxes == map[] && Run(start, calls).Some?
    ensures RegisteredHaveFiles(Run(start, calls).value)
  {
    if calls != [] {
      RegisteredAlwaysHaveFiles(start, calls[..|calls| - 1]);
      ApplyKeepsFiles(Run(start, calls[..|calls| - 1]).value, calls[|calls| - 1]);
    }
  }

  /** At any point of any run, a load that succeeds makes the registered names exactly the files. */
  lemma LoadMakesThemEqual(start: World, calls: seq<Call>, names: seq<string>, plan: seq<bool>)
    requires start.sandboxes == map[] && Run(start, calls).Some?
    requires Walks(Run(start, calls).value, names)
    ensures var o := LoadAll(Run(start, calls).value.(plan := plan), names);
      && (o.Ok() ==> o.w.sandboxes.Keys == o.w.files.Keys)
      && (!o.Ok() ==> o.w.sandboxes.Keys <= o.w.files.Keys)
  {
    var w := Run(start, calls).value;
    RegisteredAlwaysHaveFiles(start, calls);
    LoadRegisters(w.(plan := plan), names);
  }
}
