/** Installing a release with rollback: crates/pip-control/src/install.rs, over a host in which any step may fail. */
module Install {
  import opened Prelude

  type Path = int
  type Release = nat
  type Content = nat
  type ServiceName = nat

  datatype Lead = Nowhere | ToFile | ToDirectory

  /** What sits at a managed path; a link may lead nowhere. */
  datatype Node =
    | Absent
    | File(bytes: Content, mode: nat, uid: nat, gid: nat)
    | Link(target: nat, lead: Lead)
    | Directory
  {
    /** `Path::exists` follows links. */
    predicate Exists() { File? || Directory? || (Link? && !lead.Nowhere?) }

    /** `Path::is_file` follows links. */
    predicate IsFile() { File? || (Link? && lead.ToFile?) }

    predicate Exact(expected: Content) { File? && bytes == expected }
  }

  /** What sits at the `current` path. */
  datatype Current = NoCurrent | LinkTo(release: Release) | PlainFile(bytes: Content) | CurrentDirectory

  datatype Service = Service(enabled: bool, active: bool)

  datatype Managed = Managed(path: Path, bytes: Content)

  /** A service of the release, and the unit file that defines it. */
  datatype Unit = Unit(name: ServiceName, definition: Path)

  /** The verified cohort. `migrated` is the ledger file after a successful opening, `broken` whatever a failed
      one leaves. */
  datatype Plan = Plan(
    release: Release, policies: seq<Managed>, units: seq<Managed>, ledger: Path, services: seq<Unit>,
    migrated: Node, broken: Node, uid: nat, gid: nat)
  {
    function Paths(): seq<Path> {
      seq(|policies| + |units| + 1, i requires 0 <= i < |policies| + |units| + 1 =>
            if i < |policies| then policies[i].path
            else if i < |policies| + |units| then units[i - |policies|].path
            else ledger)
    }

    predicate Valid() {
      (forall i, j :: 0 <= i < j < |Paths()| ==> Paths()[i] != Paths()[j]) &&
      (forall i, j :: 0 <= i < j < |services| ==> services[i].name != services[j].name) &&
      migrated.IsFile() && !broken.Directory?
    }
  }

  function At(files: map<Path, Node>, p: Path): Node { if p in files then files[p] else Absent }

  /** What a snapshot remembers: a dangling link looks like a missing file. */
  function Remembered(n: Node): Node { if n.Exists() then n else Absent }

  /** Something readable is there: a file, a directory, or a link that leads to one. */
  predicate Stands(n: Node) {
    match n
    case Absent => false
    case File(_, _, _, _) => true
    case Directory => true
    case Link(_, lead) => lead != Nowhere
  }

  predicate Capturable(n: Node) { n.Exists() ==> n.File? }

  predicate NoDirectory(files: map<Path, Node>, paths: seq<Path>) {
    forall i :: 0 <= i < |paths| ==> !At(files, paths[i]).Directory?
  }

  /** Modes 0444 and 0600. */
  const READ_ONLY: nat := 0x124
  const PRIVATE: nat := 0x180

  datatype Outcome = Existing | Installed | Refused | RolledBack | RollbackFailed

  /** Whether the prior state of a unit is known. */
  datatype Prior = Prior(preexisting: bool, enabled: Option<bool>, active: Option<bool>)

  class Host {
    const faults: set<nat>
    var clock: nat
    var files: map<Path, Node>
    var current: Current
    var releases: set<Release>
    var services: map<ServiceName, Service>

    constructor (
      faults: set<nat>, files: map<Path, Node>, current: Current, releases: set<Release>,
      services: map<ServiceName, Service>)
      ensures this.faults == faults && this.files == files && this.current == current
      ensures this.releases == releases && this.services == services && clock == 0
    {
      this.faults, this.files, this.current := faults, files, current;
      this.releases, this.services, clock := releases, services, 0;
    }

    /** No step from now on fails. */
    predicate Quiet()
      reads this
    {
      forall f :: f in faults ==> f < clock
    }

    /** One step of the host; any step may fail. */
    method Try() returns (ok: bool)
      modifies this`clock
      ensures (ok <==> old(clock) !in faults) && clock == old(clock) + 1
    {
      ok := clock !in faults;
      clock := clock + 1;
    }

    // ---- file operations: a failed one changes nothing ----

    method WriteAtomic(p: Path, bytes: Content, mode: nat) returns (ok: bool)
      modifies this`clock, this`files
      ensures files == if ok then old(files)[p := File(bytes, mode, 0, 0)] else old(files)
      ensures ok ==> !At(old(files), p).Directory?
      ensures clock >= old(clock) && (old(Quiet()) && !At(old(files), p).Directory? ==> ok)
    {
      ok := Try();
      ok := ok && !At(files, p).Directory?;
      if ok {
        files := files[p := File(bytes, mode, 0, 0)];
      }
    }

    method Chown(p: Path, uid: nat, gid: nat) returns (ok: bool)
      modifies this`clock, this`files
      ensures ok ==> At(old(files), p).IsFile()
      ensures ok && At(old(files), p).File? ==> files == old(files)[p := At(old(files), p).(uid := uid, gid := gid)]
      ensures !ok || At(old(files), p).Link? ==> files == old(files)
      ensures clock >= old(clock) && (old(Quiet()) && At(old(files), p).IsFile() ==> ok)
    {
      ok := Try();
      ok := ok && At(files, p).IsFile();
      if ok && files[p].File? {
        files := files[p := files[p].(uid := uid, gid := gid)];
      }
    }

    method RemoveIfFile(p: Path) returns (ok: bool)
      modifies this`clock, this`files
      ensures ok ==> files == old(files)[p := Absent]
      ensures !ok ==> files == old(files)
      ensures ok ==> !At(old(files), p).Directory?
      ensures clock >= old(clock) && (old(Quiet()) && !At(old(files), p).Directory? ==> ok)
    {
      ok := Try();
      ok := ok && !At(files, p).Directory?;
      if ok {
        files := files[p := Absent];
      }
    }

    method ReplaceSymlink(target: Release) returns (ok: bool)
      modifies this`clock, this`current
      ensures current == if ok then LinkTo(target) else old(current)
      ensures ok ==> !old(current).CurrentDirectory?
      ensures clock >= old(clock) && (old(Quiet()) && !old(current).CurrentDirectory? ==> ok)
    {
      ok := Try();
      ok := ok && !current.CurrentDirectory?;
      if ok {
        current := LinkTo(target);
      }
    }

    method RemoveCurrent() returns (ok: bool)
      modifies this`clock, this`current
      ensures current == if ok then NoCurrent else old(current)
      ensures old(current).CurrentDirectory? ==> !ok
      ensures clock >= old(clock) && (old(Quiet()) && !old(current).CurrentDirectory? ==> ok)
    {
      ok := Try();
      ok := ok && !current.CurrentDirectory?;
      if ok {
        current := NoCurrent;
      }
    }

    // ---- the snapshot ----

    method Capture(paths: seq<Path>) returns (saved: Option<seq<Node>>)
      ensures saved.Some? ==> |saved.value| == |paths| && forall i :: 0 <= i < |paths| ==>
                Capturable(At(files, paths[i])) && saved.value[i] == Remembered(At(files, paths[i]))
      ensures saved.None? <==> exists i :: 0 <= i < |paths| && Stands(At(files, paths[i])) && !At(files, paths[i]).File?
    {
      var nodes: seq<Node> := [];
      for i := 0 to |paths|
        invariant |nodes| == i
        invariant forall k :: 0 <= k < i ==>
                    Capturable(At(files, paths[k])) && nodes[k] == Remembered(At(files, paths[k]))
      {
        var node := At(files, paths[i]);
        if node.Exists() {
          if !node.File? {
            return None;
          }
          nodes := nodes + [node];
        } else {
          nodes := nodes + [Absent];
        }
      }
      return Some(nodes);
    }

    method RestoreFile(p: Path, saved: Node) returns (ok: bool)
      requires saved.File? || saved.Absent?
      modifies this`clock, this`files
      ensures forall q :: q != p ==> At(files, q) == At(old(files), q)
      ensures ok ==> At(files, p) == saved
      ensures clock >= old(clock) && (old(Quiet()) && !At(old(files), p).Directory? ==> ok)
    {
      if saved.File? {
        ok := WriteAtomic(p, saved.bytes, saved.mode);
        if ok {
          ok := Chown(p, saved.uid, saved.gid);
        }
      } else {
        ok := RemoveIfFile(p);
      }
    }

    method Restore(paths: seq<Path>, saved: seq<Node>, link: Option<Release>) returns (ok: bool)
      requires |saved| == |paths| && (forall i :: 0 <= i < |saved| ==> saved[i].File? || saved[i].Absent?)
      requires forall i, j :: 0 <= i < j < |paths| ==> paths[i] != paths[j]
      modifies this`clock, this`files, this`current
      ensures forall q :: q !in paths ==> At(files, q) == At(old(files), q)
      ensures ok ==> (forall i :: 0 <= i < |paths| ==> At(files, paths[i]) == saved[i]) &&
                     current == (if link.Some? then LinkTo(link.value) else NoCurrent)
      ensures ok && link.None? ==> !old(current).CurrentDirectory?
      ensures clock >= old(clock)
      ensures old(Quiet()) && !old(current).CurrentDirectory? && NoDirectory(old(files), paths) ==> ok
    {
      for i := 0 to |paths|
        invariant current == old(current) && clock >= old(clock)
        invariant forall k :: i <= k < |paths| ==> At(files, paths[k]) == At(old(files), paths[k])
        invariant forall q :: q !in paths ==> At(files, q) == At(old(files), q)
        invariant forall k :: 0 <= k < i ==> At(files, paths[k]) == saved[k]
      {
        ok := RestoreFile(paths[i], saved[i]);
        if !ok {
          return false;
        }
      }
      if link.Some? {
        ok := ReplaceSymlink(link.value);
      } else {
        ok := RemoveCurrent();
      }
    }

    // ---- services ----

    method Configure(units: seq<Unit>) returns (priors: seq<Prior>)
      ensures |priors| == |units|
      ensures forall i :: 0 <= i < |units| ==> priors[i] == Prior(At(files, units[i].definition).Exists(), None, None)
    {
      priors := [];
      for i := 0 to |units|
        invariant |priors| == i
        invariant forall k :: 0 <= k < i ==> priors[k] == Prior(At(files, units[k].definition).Exists(), None, None)
      {
        priors := priors + [Prior(At(files, units[i].definition).Exists(), None, None)];
      }
    }

    /** Records the prior state of every unit before anything is stopped. */
    method QueryUnits(units: seq<Unit>, configured: seq<Prior>) returns (ok: bool, priors: seq<Prior>)
      requires |configured| == |units| && forall i :: 0 <= i < |units| ==>
                 configured[i].enabled.None? && configured[i].active.None?
      modifies this`clock
      ensures Tracks(units, configured, services, priors)
      ensures ok ==> forall i :: 0 <= i < |units| ==> Known(priors[i])
      ensures clock >= old(clock) && (old(Quiet()) ==> ok)
      ensures NoneDefined(configured) ==>
                ok && clock == old(clock) && forall i :: 0 <= i < |units| ==> priors[i].active == Some(false)
    {
      priors := configured;
      for i := 0 to |units|
        invariant clock >= old(clock)
        invariant Tracks(units, configured, services, priors)
        invariant forall k :: 0 <= k < i ==> Known(priors[k])
        invariant forall k :: i <= k < |units| ==> priors[k] == configured[k]
        invariant NoneDefined(configured) ==>
          clock == old(clock) && forall k :: 0 <= k < i ==> priors[k].active == Some(false)
      {
        if !priors[i].preexisting {
          priors := priors[i := priors[i].(enabled := Some(false), active := Some(false))];
          continue;
        }
        ok := Try();
        if !ok {
          return;
        }
        priors := priors[i := priors[i].(enabled := Some(ServiceAt(services, units[i].name).enabled))];
        ok := Try();
        if !ok {
          return;
        }
        priors := priors[i := priors[i].(active := Some(ServiceAt(services, units[i].name).active))];
      }
      ok := true;
    }

    method StopUnits(units: seq<Unit>, priors: seq<Prior>) returns (ok: bool)
      requires |priors| == |units|
      modifies this`clock, this`services
      ensures OthersKept(units, old(services), services)
      ensures ok ==> forall i :: 0 <= i < |units| && priors[i].active == Some(true) ==>
                !ServiceAt(services, units[i].name).active
      ensures forall n :: ServiceAt(services, n).enabled == ServiceAt(old(services), n).enabled &&
                          (ServiceAt(services, n).active ==> ServiceAt(old(services), n).active)
      ensures clock >= old(clock) && (old(Quiet()) ==> ok)
      ensures (forall i :: 0 <= i < |units| ==> priors[i].active == Some(false)) ==>
                ok && clock == old(clock) && services == old(services)
    {
      for i := 0 to |units|
        invariant clock >= old(clock) && OthersKept(units, old(services), services)
        invariant forall k :: 0 <= k < i && priors[k].active == Some(true) ==>
          !ServiceAt(services, units[k].name).active
        invariant forall n :: ServiceAt(services, n).enabled == ServiceAt(old(services), n).enabled &&
                              (ServiceAt(services, n).active ==> ServiceAt(old(services), n).active)
        invariant (forall k :: 0 <= k < |units| ==> priors[k].active == Some(false)) ==>
          clock == old(clock) && services == old(services)
      {
        if priors[i].active == Some(true) {
          ok := Try();
          if !ok {
            return;
          }
          services := services[units[i].name := ServiceAt(services, units[i].name).(active := false)];
        }
      }
      ok := true;
    }

    method BeforeMutation(units: seq<Unit>, configured: seq<Prior>) returns (ok: bool, priors: seq<Prior>)
      requires |configured| == |units| && forall i :: 0 <= i < |units| ==>
                 configured[i].enabled.None? && configured[i].active.None?
      modifies this`clock, this`services
      ensures Tracks(units, configured, old(services), priors)
      ensures (forall i :: 0 <= i < |units| ==> Known(priors[i])) || services == old(services)
      ensures OthersKept(units, old(services), services)
      ensures ok ==> (forall i :: 0 <= i < |units| ==> Known(priors[i])) && Stopped(units, priors, services)
      ensures clock >= old(clock) && (old(Quiet()) ==> ok)
      ensures NoneDefined(configured) ==> ok && clock == old(clock) && services == old(services)
    {
      ok, priors := QueryUnits(units, configured);
      if ok {
        ok := StopUnits(units, priors);
      }
    }

    method RestoreUnit(name: ServiceName, enabled: bool, active: bool) returns (ok: bool)
      modifies this`clock, this`services
      ensures forall n :: n != name ==> ServiceAt(services, n) == ServiceAt(old(services), n)
      ensures ok ==> ServiceAt(services, name) == Service(enabled, active)
      ensures clock >= old(clock) && (old(Quiet()) ==> ok)
    {
      ok := Try();
      if ok {
        services := services[name := ServiceAt(services, name).(enabled := enabled)];
        ok := Try();
        if ok {
          services := services[name := ServiceAt(services, name).(active := active)];
        }
      }
    }

    method RestoreState(units: seq<Unit>, priors: seq<Prior>, includeNew: bool) returns (ok: bool)
      requires |priors| == |units| && forall i, j :: 0 <= i < j < |units| ==> units[i].name != units[j].name
      modifies this`clock, this`services
      ensures ok ==> forall i :: 0 <= i < |units| ==>
                ServiceAt(services, units[i].name) == Restored(priors[i], includeNew, old(services), units[i].name)
      ensures OthersKept(units, old(services), services)
      ensures clock >= old(clock) && (old(Quiet()) ==> ok)
    {
      for i := 0 to |units|
        invariant clock >= old(clock) && OthersKept(units, old(services), services)
        invariant forall k :: 0 <= k < i ==>
          ServiceAt(services, units[k].name) == Restored(priors[k], includeNew, old(services), units[k].name)
        invariant forall k :: i <= k < |units| ==>
          ServiceAt(services, units[k].name) == ServiceAt(old(services), units[k].name)
      {
        if (includeNew || priors[i].preexisting) && Known(priors[i]) {
          ok := RestoreUnit(units[i].name, priors[i].enabled.value, priors[i].active.value);
          if !ok {
            return;
          }
        }
      }
      ok := true;
    }

    /** Gives every pre-existing unit its recorded state back. */
    method RollbackUnits(
      units: seq<Unit>, priors: seq<Prior>, ghost configured: seq<Prior>, ghost before: map<ServiceName, Service>)
      returns (ok: bool)
      requires |priors| == |units| && forall i, j :: 0 <= i < j < |units| ==> units[i].name != units[j].name
      requires Tracks(units, configured, before, priors)
      requires (forall i :: 0 <= i < |units| ==> Known(priors[i])) || services == before
      modifies this`clock, this`services
      ensures ok ==> ServicesBack(units, configured, before, services)
      ensures OthersKept(units, old(services), services)
      ensures clock >= old(clock) && (old(Quiet()) ==> ok)
    {
      if forall i :: 0 <= i < |units| ==> priors[i].enabled.None? {
        return true;
      }
      ok := Try();
      if ok {
        ok := RestoreState(units, priors, false);
      }
    }

    // ---- the installation ----

    /** A packaged policy is only a seed: an existing policy file keeps its own bytes. */
    method SeedPolicies(policies: seq<Managed>) returns (seeded: Option<seq<Managed>>)
      ensures seeded.Some? <==> forall i :: 0 <= i < |policies| ==>
                At(files, policies[i].path).File? || At(files, policies[i].path).Absent?
      ensures seeded.Some? ==> |seeded.value| == |policies| && forall i :: 0 <= i < |policies| ==>
                seeded.value[i] == Seed(files, policies[i])
    {
      var ms: seq<Managed> := [];
      for i := 0 to |policies|
        invariant |ms| == i && forall k :: 0 <= k < i ==> ms[k] == Seed(files, policies[k])
        invariant forall k :: 0 <= k < i ==> At(files, policies[k].path).File? || At(files, policies[k].path).Absent?
      {
        var node := At(files, policies[i].path);
        if !(node.File? || node.Absent?) {
          return None;
        }
        ms := ms + [Managed(policies[i].path, if node.File? then node.bytes else policies[i].bytes)];
      }
      return Some(ms);
    }

    /** Writes the files in order; policies already exact are left alone. */
    method WriteAll(ms: seq<Managed>, always: bool) returns (ok: bool)
      requires forall i, j :: 0 <= i < j < |ms| ==> ms[i].path != ms[j].path
      modifies this`clock, this`files
      ensures forall q :: (forall i :: 0 <= i < |ms| ==> ms[i].path != q) ==> At(files, q) == At(old(files), q)
      ensures ok ==> forall i :: 0 <= i < |ms| ==> At(files, ms[i].path).Exact(ms[i].bytes)
      ensures ok ==> forall i :: 0 <= i < |ms| && (always || !At(old(files), ms[i].path).Exact(ms[i].bytes)) ==>
                At(files, ms[i].path) == File(ms[i].bytes, READ_ONLY, 0, 0)
      ensures clock >= old(clock)
      ensures old(Quiet()) && (forall i :: 0 <= i < |ms| ==> !At(old(files), ms[i].path).Directory?) ==> ok
      ensures !always ==> forall i :: 0 <= i < |ms| && At(old(files), ms[i].path).Exact(ms[i].bytes) ==>
                At(files, ms[i].path) == At(old(files), ms[i].path)
    {
      for i := 0 to |ms|
        invariant forall q :: (forall k :: 0 <= k < i ==> ms[k].path != q) ==> At(files, q) == At(old(files), q)
        invariant forall k :: 0 <= k < i ==> At(files, ms[k].path).Exact(ms[k].bytes)
        invariant forall k :: 0 <= k < i && (always || !At(old(files), ms[k].path).Exact(ms[k].bytes)) ==>
          At(files, ms[k].path) == File(ms[k].bytes, READ_ONLY, 0, 0)
        invariant clock >= old(clock)
        invariant !always ==> forall k :: 0 <= k < i && At(old(files), ms[k].path).Exact(ms[k].bytes) ==>
          At(files, ms[k].path) == At(old(files), ms[k].path)
      {
        if always || !At(files, ms[i].path).Exact(ms[i].bytes) {
          ok := WriteAtomic(ms[i].path, ms[i].bytes, READ_ONLY);
          if !ok {
            return;
          }
        }
      }
      ok := true;
    }

    /** Opening the ledger migrates it; even a failed opening may leave something behind. */
    method OpenLedger(plan: Plan) returns (ok: bool)
      requires plan.migrated.IsFile()
      modifies this`clock, this`files
      ensures forall q :: q != plan.ledger ==> At(files, q) == At(old(files), q)
      ensures ok ==> At(files, plan.ledger).IsFile()
      ensures ok && plan.migrated.File? ==> At(files, plan.ledger) == plan.migrated.(mode := PRIVATE)
      ensures clock >= old(clock) && (old(Quiet()) ==> ok)
    {
      ok := Try();
      files := files[plan.ledger := if ok then plan.migrated else plan.broken];
      if ok {
        ok := Try();
        if ok && plan.migrated.File? {
          files := files[plan.ledger := plan.migrated.(mode := PRIVATE)];
        }
      }
    }

    method AddRelease(release: Release) returns (ok: bool)
      modifies this`clock, this`releases
      ensures releases == old(releases) || releases == old(releases) + {release}
      ensures ok ==> release in releases
      ensures clock >= old(clock) && (old(Quiet()) ==> ok)
      ensures release !in old(releases) && old(clock) in faults ==>
                !ok && clock == old(clock) + 1 && releases == old(releases)
    {
      if release in releases {
        return true;
      }
      ok := Try();
      if ok {
        releases := releases + {release};
        ok := Try();
      }
    }

    method WriteFiles(plan: Plan) returns (ok: bool)
      requires plan.Valid()
      modifies this`clock, this`files
      ensures forall q :: q !in plan.Paths() ==> At(files, q) == At(old(files), q)
      ensures ok ==> FilesInPlace(plan, files) && Written(plan, old(files), files)
      ensures ok && plan.migrated.File? ==> At(files, plan.ledger) == plan.migrated.(mode := PRIVATE)
      ensures ok ==> ExactKept(plan, old(files), files)
      ensures clock >= old(clock) && (old(Quiet()) && NoDirectory(old(files), plan.Paths()) ==> ok)
    {
      ManagedPaths(plan);
      ok := WriteAll(plan.policies, false);
      if ok {
        ok := Try();
      }
      if ok {
        ok := WriteAll(plan.units, true);
      }
      if ok {
        ok := Try();
      }
      if ok {
        ok := OpenLedger(plan);
      }
    }

    method Commit(plan: Plan, priors: seq<Prior>) returns (ok: bool)
      requires plan.Valid() && |priors| == |plan.services| && FilesInPlace(plan, files)
      modifies this`clock, this`files, this`services
      ensures forall q :: q != plan.ledger ==> At(files, q) == At(old(files), q)
      ensures ok ==> FilesInPlace(plan, files)
      ensures ok && At(old(files), plan.ledger).File? ==>
                At(files, plan.ledger) == At(old(files), plan.ledger).(uid := plan.uid, gid := plan.gid)
      ensures ok ==> Recovered(plan.services, priors, services)
      ensures OthersKept(plan.services, old(services), services)
      ensures clock >= old(clock) && (old(Quiet()) ==> ok)
    {
      ManagedPaths(plan);
      ok := Chown(plan.ledger, plan.uid, plan.gid);
      if ok {
        ok := Try();
      }
      if ok {
        ok := RestoreState(plan.services, priors, true);
      }
    }

    method Mutate(plan: Plan, priors: seq<Prior>) returns (ok: bool)
      requires plan.Valid() && |priors| == |plan.services| && Stopped(plan.services, priors, services)
      modifies this
      ensures forall q :: q !in plan.Paths() ==> At(files, q) == At(old(files), q)
      ensures releases == old(releases) || releases == old(releases) + {plan.release}
      ensures current == old(current) || (current == LinkTo(plan.release) && !old(current).CurrentDirectory?)
      ensures ok ==> FilesInPlace(plan, files) && current == LinkTo(plan.release) && plan.release in releases
      ensures ok ==> ExactKept(plan, old(files), files) && Written(plan, old(files), files)
      ensures ok && plan.migrated.File? ==>
                At(files, plan.ledger) == plan.migrated.(mode := PRIVATE, uid := plan.uid, gid := plan.gid)
      ensures ok ==> Recovered(plan.services, priors, services)
      ensures OthersKept(plan.services, old(services), services)
      ensures old(Quiet()) && !old(current).CurrentDirectory? && NoDirectory(old(files), plan.Paths()) ==> ok
      ensures plan.release !in old(releases) && old(clock) in faults ==>
                !ok && clock == old(clock) + 1 && files == old(files) && current == old(current) &&
                releases == old(releases)
    {
      ManagedPaths(plan);
      ok := AddRelease(plan.release);
      if ok {
        ok := Try();
      }
      if ok {
        ok := WriteFiles(plan);
      }
      if ok {
        ok := Try();
      }
      if ok {
        ok := ReplaceSymlink(plan.release);
      }
      if ok {
        ok := Try();
      }
      if ok {
        ok := Commit(plan, priors);
      }
    }

    /** Undoes a failed mutation: files, link and release directory, then the services. */
    method Rollback(plan: Plan, saved: seq<Node>, link: Option<Release>, preexisting: bool, priors: seq<Prior>,
                    ghost configured: seq<Prior>, ghost before: map<ServiceName, Service>) returns (ok: bool)
      requires plan.Valid() && |saved| == |plan.Paths()| &&
               (forall i :: 0 <= i < |saved| ==> saved[i].File? || saved[i].Absent?)
      requires |priors| == |plan.services| && Tracks(plan.services, configured, before, priors)
      requires forall i :: 0 <= i < |priors| ==> Known(priors[i])
      modifies this
      ensures forall q :: q !in plan.Paths() ==> At(files, q) == At(old(files), q)
      ensures ok ==> (forall i :: 0 <= i < |plan.Paths()| ==> At(files, plan.Paths()[i]) == saved[i])
      ensures ok ==> current == (if link.Some? then LinkTo(link.value) else NoCurrent)
      ensures ok && link.None? ==> !old(current).CurrentDirectory?
      ensures ok ==> releases == if preexisting then old(releases) else old(releases) - {plan.release}
      ensures ok ==> ServicesBack(plan.services, configured, before, services)
      ensures OthersKept(plan.services, old(services), services)
      ensures old(Quiet()) && !old(current).CurrentDirectory? && NoDirectory(old(files), plan.Paths()) ==> ok
    {
      var restored := Restore(plan.Paths(), saved, link);
      if !preexisting && plan.release in releases {
        ok := Try();
        if !ok {
          return;
        }
        releases := releases - {plan.release};
      }
      ok := RollbackUnits(plan.services, priors, configured, before);
      ok := ok && restored;
    }

    /** Mutates the host behind a snapshot, and puts everything back when a step fails. */
    method Attempt(plan: Plan, configured: seq<Prior>) returns (outcome: Outcome)
      requires plan.Valid() && |configured| == |plan.services|
      requires forall i :: 0 <= i < |configured| ==> configured[i].enabled.None? && configured[i].active.None?
      modifies this
      ensures !outcome.Existing?
      ensures outcome.Refused? ==> files == old(files) && current == old(current) && releases == old(releases)
      ensures outcome.Installed? ==>
                FilesInPlace(plan, files) && current == LinkTo(plan.release) && plan.release in releases
      ensures outcome.Installed? ==> ExactKept(plan, old(files), files) && Written(plan, old(files), files)
      ensures outcome.Installed? && plan.migrated.File? ==>
                At(files, plan.ledger) == plan.migrated.(mode := PRIVATE, uid := plan.uid, gid := plan.gid)
      ensures outcome.Installed? ==> ServicesSettled(plan.services, configured, old(services), services)
      ensures OthersKept(plan.services, old(services), services)
      ensures old(Quiet()) && !old(current).CurrentDirectory? && AllCapturable(old(files), plan.Paths()) ==>
                outcome.Installed?
      ensures outcome.Refused? || outcome.RolledBack? ==>
                ServicesBack(plan.services, configured, old(services), services)
      ensures outcome.RolledBack? ==> releases == old(releases)
      ensures outcome.RolledBack? ==>
                ((forall p :: At(files, p) == At(old(files), p)) <==>
                 forall i :: 0 <= i < |plan.Paths()| ==> !At(old(files), plan.Paths()[i]).Link?)
      ensures outcome.RolledBack? ==> (current == old(current) <==> !old(current).PlainFile?)
      ensures Doomed(plan, old(files), old(current), old(releases), old(clock), faults) && NoneDefined(configured) ==>
                outcome.RolledBack?
    {
      var saved := Capture(plan.Paths());
      if saved.None? {
        return Refused;
      }
      var link := if current.LinkTo? then Some(current.release) else None;
      var preexisting := plan.release in releases;
      var prepared, priors := BeforeMutation(plan.services, configured);
      if !prepared {
        var undone := RollbackUnits(plan.services, priors, configured, old(services));
        return if undone then Refused else RollbackFailed;
      }
      var done := Mutate(plan, priors);
      if done {
        return Installed;
      }
      var undone := Rollback(plan, saved.value, link, preexisting, priors, configured, old(services));
      if undone {
        RememberedExactly(plan.Paths(), old(files), files);
      }
      return if undone then RolledBack else RollbackFailed;
    }

    /** Installs the release or puts everything back. */
    method InstallRelease(packaged: Plan) returns (outcome: Outcome)
      requires packaged.Valid()
      modifies this
      ensures outcome.Existing? || outcome.Refused? ==>
                files == old(files) && current == old(current) && releases == old(releases)
      ensures outcome.Existing? ==> services == old(services)
      ensures InPlace(packaged, old(files), old(current), old(releases)) ==>
                outcome == if old(clock) in faults then Refused else Existing
      ensures outcome.Installed? ==> InPlace(packaged, files, current, releases)
      ensures outcome.Installed? ==> PoliciesKept(packaged, old(files), files) && NewFiles(packaged, old(files), files)
      ensures outcome.Installed? ==> ServicesKept(packaged, old(files), old(services), services)
      ensures OthersKept(packaged.services, old(services), services)
      ensures old(Quiet()) && Installable(packaged, old(files), old(current)) ==>
                outcome == if InPlace(packaged, old(files), old(current), old(releases)) then Existing else Installed
      ensures outcome.Refused? || outcome.RolledBack? ==>
                ServicesRestored(packaged, old(files), old(services), services)
      ensures outcome.RolledBack? ==> releases == old(releases)
      ensures outcome.RolledBack? ==>
                ((forall p :: At(files, p) == At(old(files), p)) <==> Restorable(packaged, old(files), NoCurrent)) &&
                (current == old(current) <==> !old(current).PlainFile?)
      ensures outcome.RolledBack? ==>
                ((forall p :: At(files, p) == At(old(files), p)) && current == old(current) <==>
                 Restorable(packaged, old(files), old(current)))
      ensures FirstStepFails(packaged, old(files), old(current), old(releases), old(clock), faults) ==>
                outcome.RolledBack?
    {
      var seeded := SeedPolicies(packaged.policies);
      if seeded.None? {
        return Refused;
      }
      var plan := packaged.(policies := seeded.value);
      SeededPlan(packaged, plan, files);
      NoLinks(packaged, files);
      var configured := Configure(plan.services);
      if plan.release in releases {
        var verified := Try();
        if !verified {
          return Refused;
        }
        if current == LinkTo(plan.release) && FilesInPlace(plan, files) {
          return Existing;
        }
      }
      outcome := Attempt(plan, configured);
    }
  }

  function ServiceAt(services: map<ServiceName, Service>, name: ServiceName): Service {
    if name in services then services[name] else Service(false, false)
  }

  /** The state a unit is brought back to: its recorded one, where that is known and asked for. */
  function Restored(p: Prior, includeNew: bool, services: map<ServiceName, Service>, name: ServiceName): Service {
    if Known(p) && (includeNew || p.preexisting) then Service(p.enabled.value, p.active.value)
    else ServiceAt(services, name)
  }

  /** No unit of the release was defined before. */
  predicate NoneDefined(configured: seq<Prior>) { forall i :: 0 <= i < |configured| ==> !configured[i].preexisting }

  predicate Known(p: Prior) { p.enabled.Some? && p.active.Some? }

  /** Services outside the release keep their state. */
  ghost predicate OthersKept(units: seq<Unit>, before: map<ServiceName, Service>, after: map<ServiceName, Service>) {
    forall n :: (forall i :: 0 <= i < |units| ==> units[i].name != n) ==> ServiceAt(after, n) == ServiceAt(before, n)
  }

  /** No unit that was defined before runs. */
  predicate Stopped(units: seq<Unit>, priors: seq<Prior>, services: map<ServiceName, Service>) {
    |priors| == |units| &&
    forall i :: 0 <= i < |units| && priors[i].preexisting ==> !ServiceAt(services, units[i].name).active
  }

  /** Every unit has its recorded state. */
  predicate Recovered(units: seq<Unit>, priors: seq<Prior>, services: map<ServiceName, Service>) {
    |priors| == |units| &&
    forall i :: 0 <= i < |units| && Known(priors[i]) ==>
      ServiceAt(services, units[i].name) == Service(priors[i].enabled.value, priors[i].active.value)
  }

  /** After an installation every unit defined before is as it was, and every new one is disabled and inactive. */
  predicate ServicesSettled(
    units: seq<Unit>, configured: seq<Prior>, before: map<ServiceName, Service>, after: map<ServiceName, Service>) {
    |configured| == |units| &&
    forall i :: 0 <= i < |units| ==>
      ServiceAt(after, units[i].name) ==
      if configured[i].preexisting then ServiceAt(before, units[i].name) else Service(false, false)
  }

  /** The same, by the unit files found before the installation. */
  predicate ServicesKept(
    plan: Plan, files: map<Path, Node>, before: map<ServiceName, Service>, after: map<ServiceName, Service>) {
    forall i :: 0 <= i < |plan.services| ==>
      ServiceAt(after, plan.services[i].name) ==
      if Stands(At(files, plan.services[i].definition)) then ServiceAt(before, plan.services[i].name)
      else Service(false, false)
  }

  /** Every recorded state of a pre-existing unit is the state it had; a new unit is recorded as off. */
  predicate Tracks(units: seq<Unit>, configured: seq<Prior>, before: map<ServiceName, Service>, priors: seq<Prior>) {
    |priors| == |configured| == |units| &&
    forall i :: 0 <= i < |units| ==>
      priors[i].preexisting == configured[i].preexisting &&
      (priors[i].preexisting && Known(priors[i]) ==>
         ServiceAt(before, units[i].name) == Service(priors[i].enabled.value, priors[i].active.value)) &&
      (!priors[i].preexisting && Known(priors[i]) ==> !priors[i].enabled.value && !priors[i].active.value) &&
      (priors[i].preexisting && priors[i].enabled.Some? ==>
         priors[i].enabled.value == ServiceAt(before, units[i].name).enabled)
  }

  /** Every unit defined before the installation is as it was. */
  predicate ServicesBack(
    units: seq<Unit>, configured: seq<Prior>, before: map<ServiceName, Service>, after: map<ServiceName, Service>) {
    |configured| == |units| &&
    forall i :: 0 <= i < |units| && configured[i].preexisting ==>
      ServiceAt(after, units[i].name) == ServiceAt(before, units[i].name)
  }

  function Seed(files: map<Path, Node>, m: Managed): Managed {
    Managed(m.path, if At(files, m.path).File? then At(files, m.path).bytes else m.bytes)
  }

  /** Policies that already hold their bytes are untouched. */
  predicate ExactKept(plan: Plan, before: map<Path, Node>, after: map<Path, Node>) {
    forall i :: 0 <= i < |plan.policies| && At(before, plan.policies[i].path).Exact(plan.policies[i].bytes) ==>
      At(after, plan.policies[i].path) == At(before, plan.policies[i].path)
  }

  /** Every unit file, and every policy file that was not exact, is written read-only for root. */
  predicate Written(plan: Plan, before: map<Path, Node>, after: map<Path, Node>) {
    (forall i :: 0 <= i < |plan.units| ==>
       At(after, plan.units[i].path) == File(plan.units[i].bytes, READ_ONLY, 0, 0)) &&
    forall i :: 0 <= i < |plan.policies| && !At(before, plan.policies[i].path).Exact(plan.policies[i].bytes) ==>
      At(after, plan.policies[i].path) == File(plan.policies[i].bytes, READ_ONLY, 0, 0)
  }

  /** Units are replaced, missing policies seeded, and the ledger is private to the state user. */
  predicate NewFiles(packaged: Plan, before: map<Path, Node>, after: map<Path, Node>) {
    (forall i :: 0 <= i < |packaged.units| ==>
       At(after, packaged.units[i].path) == File(packaged.units[i].bytes, READ_ONLY, 0, 0)) &&
    (forall i :: 0 <= i < |packaged.policies| && At(before, packaged.policies[i].path).Absent? ==>
       At(after, packaged.policies[i].path) == File(packaged.policies[i].bytes, READ_ONLY, 0, 0)) &&
    (packaged.migrated.File? ==>
       At(after, packaged.ledger) ==
       packaged.migrated.(mode := PRIVATE, uid := packaged.uid, gid := packaged.gid))
  }

  predicate AllCapturable(files: map<Path, Node>, paths: seq<Path>) {
    forall i :: 0 <= i < |paths| ==> Capturable(At(files, paths[i]))
  }

  /** Nothing on the host stands in the way: policies are files or missing, no managed path resolves to a link or a
      directory, and `current` is no directory. */
  predicate Installable(packaged: Plan, files: map<Path, Node>, current: Current) {
    (forall i :: 0 <= i < |packaged.policies| ==>
       At(files, packaged.policies[i].path).File? || At(files, packaged.policies[i].path).Absent?) &&
    AllCapturable(files, packaged.Paths()) && !current.CurrentDirectory?
  }

  predicate FilesInPlace(plan: Plan, files: map<Path, Node>) {
    (forall i :: 0 <= i < |plan.policies| ==> At(files, plan.policies[i].path).Exact(plan.policies[i].bytes)) &&
    (forall i :: 0 <= i < |plan.units| ==> At(files, plan.units[i].path).Exact(plan.units[i].bytes)) &&
    At(files, plan.ledger).IsFile()
  }

  /** Every managed path can be remembered, and exactly the next step of the host fails: the release cannot be added. */
  ghost predicate Doomed(
    plan: Plan, files: map<Path, Node>, current: Current, releases: set<Release>, clock: nat, faults: set<nat>) {
    plan.release !in releases && !current.CurrentDirectory? && clock in faults &&
    (forall f :: f in faults ==> f <= clock) &&
    forall i :: 0 <= i < |plan.Paths()| ==> Capturable(At(files, plan.Paths()[i]))
  }

  /** A first installation on a host whose next step fails. */
  ghost predicate FirstStepFails(
    plan: Plan, files: map<Path, Node>, current: Current, releases: set<Release>, clock: nat, faults: set<nat>) {
    Doomed(plan, files, current, releases, clock, faults) &&
    (forall i :: 0 <= i < |plan.policies| ==>
       At(files, plan.policies[i].path).File? || At(files, plan.policies[i].path).Absent?) &&
    forall i :: 0 <= i < |plan.services| ==> !At(files, plan.services[i].definition).Exists()
  }

  /** The managed paths, part by part. */
  lemma ManagedPaths(plan: Plan)
    requires plan.Valid()
    ensures forall i :: 0 <= i < |plan.policies| ==>
              plan.policies[i].path in plan.Paths() && plan.policies[i].path != plan.ledger
    ensures forall i :: 0 <= i < |plan.units| ==>
              plan.units[i].path in plan.Paths() && plan.units[i].path != plan.ledger
    ensures plan.ledger in plan.Paths()
    ensures forall i, j :: 0 <= i < j < |plan.policies| ==> plan.policies[i].path != plan.policies[j].path
    ensures forall i, j :: 0 <= i < j < |plan.units| ==> plan.units[i].path != plan.units[j].path
    ensures forall i, j :: 0 <= i < |plan.policies| && 0 <= j < |plan.units| ==>
              plan.policies[i].path != plan.units[j].path
  {
    var p, n := plan.Paths(), |plan.policies|;
    assert p[n + |plan.units|] == plan.ledger;
    assert forall i :: 0 <= i < n ==> p[i] == plan.policies[i].path;
    assert forall i :: 0 <= i < |plan.units| ==> p[n + i] == plan.units[i].path;
  }

  /** The release is fully installed. */
  predicate InPlace(packaged: Plan, files: map<Path, Node>, current: Current, releases: set<Release>) {
    (forall i :: 0 <= i < |packaged.policies| ==> At(files, packaged.policies[i].path).File?) &&
    (forall i :: 0 <= i < |packaged.units| ==> At(files, packaged.units[i].path).Exact(packaged.units[i].bytes)) &&
    (At(files, packaged.ledger).File? ||
     (At(files, packaged.ledger).Link? && At(files, packaged.ledger).lead == ToFile)) &&
    current == LinkTo(packaged.release) && packaged.release in releases
  }

  /** Policies that existed before are untouched. */
  predicate PoliciesKept(packaged: Plan, before: map<Path, Node>, after: map<Path, Node>) {
    forall i :: 0 <= i < |packaged.policies| && At(before, packaged.policies[i].path).File? ==>
      At(after, packaged.policies[i].path) == At(before, packaged.policies[i].path)
  }

  /** Every service whose unit file existed before has its enabled and active state back. */
  predicate ServicesRestored(
    plan: Plan, files: map<Path, Node>, before: map<ServiceName, Service>, after: map<ServiceName, Service>) {
    forall i :: 0 <= i < |plan.services| && Stands(At(files, plan.services[i].definition)) ==>
      ServiceAt(after, plan.services[i].name) == ServiceAt(before, plan.services[i].name)
  }

  /** What the snapshot can put back: `current` is not a plain file, and no unit or ledger path is a dangling link. */
  predicate Restorable(plan: Plan, files: map<Path, Node>, current: Current) {
    !current.PlainFile? && !At(files, plan.ledger).Link? && forall i :: 0 <= i < |plan.units| ==>
      !At(files, plan.units[i].path).Link?
  }

  lemma SeededPlan(packaged: Plan, plan: Plan, files: map<Path, Node>)
    requires packaged.Valid() && plan == packaged.(policies := plan.policies) && |plan.policies| == |packaged.policies|
    requires forall i :: 0 <= i < |plan.policies| ==> plan.policies[i] == Seed(files, packaged.policies[i])
    ensures plan.Valid() && plan.Paths() == packaged.Paths()
  {
    assert plan.Paths() == packaged.Paths();
  }

  /** Putting back what the snapshot remembers is putting everything back exactly when no link was forgotten. */
  lemma RememberedExactly(paths: seq<Path>, before: map<Path, Node>, after: map<Path, Node>)
    requires forall i :: 0 <= i < |paths| ==>
               Capturable(At(before, paths[i])) && At(after, paths[i]) == Remembered(At(before, paths[i]))
    requires forall q :: q !in paths ==> At(after, q) == At(before, q)
    ensures (forall p :: At(after, p) == At(before, p)) <==>
            forall i :: 0 <= i < |paths| ==> !At(before, paths[i]).Link?
  {
  }

  lemma NoLinks(plan: Plan, files: map<Path, Node>)
    requires forall i :: 0 <= i < |plan.policies| ==>
               At(files, plan.policies[i].path).File? || At(files, plan.policies[i].path).Absent?
    ensures (forall i :: 0 <= i < |plan.Paths()| ==> !At(files, plan.Paths()[i]).Link?) <==>
            Restorable(plan, files, NoCurrent)
  {
    var p, n := plan.Paths(), |plan.policies|;
    assert p[n + |plan.units|] == plan.ledger;
    assert forall i :: 0 <= i < n ==> p[i] == plan.policies[i].path;
    assert forall i :: n <= i < n + |plan.units| ==> p[i] == plan.units[i - n].path;
    if forall i :: 0 <= i < |p| ==> !At(files, p[i]).Link? {
      forall i | 0 <= i < |plan.units| ensures !At(files, plan.units[i].path).Link? {
        assert p[n + i] == plan.units[i].path;
      }
    }
  }

  // ---- what a rollback cannot put back ----

  /** On every first installation whose layout is not restorable, a failing first step ends in a successful
      rollback that has lost the plain file at `current` or a dangling link. */
  method RollbackForgets(plan: Plan, files: map<Path, Node>, current: Current, services: map<ServiceName, Service>)
    returns (host: Host, outcome: Outcome)
    requires plan.Valid() && !Restorable(plan, files, current) && FirstStepFails(plan, files, current, {}, 0, {0})
    ensures outcome.RolledBack?
    ensures (host.current == current <==> !current.PlainFile?)
    ensures (forall p :: At(host.files, p) == At(files, p)) <==> Restorable(plan, files, NoCurrent)
  {
    host := new Host({0}, files, current, {}, services);
    outcome := host.InstallRelease(plan);
  }

  const SAMPLE: Plan := Plan(1, [Managed(1, 5)], [Managed(2, 6)], 3, [], File(7, 0x180, 0, 0), Absent, 0, 0)

  lemma SampleIsValid()
    ensures SAMPLE.Valid() && SAMPLE.Paths() == [1, 2, 3]
  {
    assert SAMPLE.Paths() == [1, 2, 3];
  }

  /** A plain file at `current` is gone after the rollback. */
  method PlainCurrentIsLost() returns (host: Host, outcome: Outcome)
    ensures outcome.RolledBack? && host.current != PlainFile(9)
  {
    SampleIsValid();
    host, outcome := RollbackForgets(SAMPLE, map[], PlainFile(9), map[]);
  }

  /** A dangling link at a unit path is gone after the rollback. */
  method DanglingUnitIsLost() returns (host: Host, outcome: Outcome)
    ensures outcome.RolledBack? && exists p :: At(host.files, p) != At(map[2 := Link(4, Nowhere)], p)
  {
    SampleIsValid();
    var files := map[2 := Link(4, Nowhere)];
    assert At(files, SAMPLE.units[0].path).Link?;
    host, outcome := RollbackForgets(SAMPLE, files, NoCurrent, map[]);
  }
}
