/**
 The Makefile's `targets` registry: decorating a step registers its target
 under its name, at most one target may be the default, `get_target` finds a
 target by name or the first default, and `make` runs the target it finds.

 A Python dict keeps insertion order and an assignment to an existing key
 keeps that key's place; the registry is the key order plus the entries.
 */
module TargetRegistry {
  import opened PyRuntime
  import opened Targets

  /** The module-level `targets` dict. */
  datatype Registry = Registry(order: seq<string>, entries: map<string, Target>)

  const Empty: Registry := Registry([], map[])

  /** The shape every registry built by registrations has: keys listed once,
      listed exactly when present, each target stored under its own name. */
  ghost predicate Valid(reg: Registry) {
    && (forall i, j :: 0 <= i < j < |reg.order| ==> reg.order[i] != reg.order[j])
    && (forall k :: k in reg.entries <==> k in reg.order)
    && (forall k :: k in reg.entries ==> reg.entries[k].name == k)
  }

  predicate IsDefault(reg: Registry, k: string) {
    k in reg.entries && reg.entries[k].default
  }

  /** The property the default check in `Target.__call__` exists for. */
  ghost predicate AtMostOneDefault(reg: Registry) {
    forall a, b :: IsDefault(reg, a) && IsDefault(reg, b) ==> a == b
  }

  /** `targets[t.name] = t`: the name now maps to `t`, every other entry is
      untouched, a new name goes last and a known one keeps its place. */
  function Put(reg: Registry, t: Target): (r: Registry)
    ensures t.name in r.entries && r.entries[t.name] == t
    ensures forall k :: k != t.name ==> (k in r.entries <==> k in reg.entries)
    ensures forall k :: k != t.name && k in reg.entries ==> r.entries[k] == reg.entries[k]
    ensures t.name in reg.entries ==> r.order == reg.order
    ensures t.name !in reg.entries ==> r.order == reg.order + [t.name]
    ensures Valid(reg) ==> Valid(r)
  {
    Registry(if t.name in reg.entries then reg.order else reg.order + [t.name], reg.entries[t.name := t])
  }

  /** Storing a target keeps the single default, provided a default target
      only replaces the entry under its own name or joins a registry without a
      default. */
  lemma PutKeepsOneDefault(reg: Registry, t: Target)
    ensures AtMostOneDefault(reg) && (t.default ==> forall k :: k != t.name ==> !IsDefault(reg, k)) ==>
              AtMostOneDefault(Put(reg, t))
  {
    var r := Put(reg, t);
    if !AtMostOneDefault(reg) || (t.default && exists k :: k != t.name && IsDefault(reg, k)) {
      return;
    }
    forall a, b | IsDefault(r, a) && IsDefault(r, b)
      ensures a == b
    {
      if a != t.name && b != t.name {
        assert IsDefault(reg, a) && IsDefault(reg, b);
      } else if a == t.name && b != t.name {
        assert IsDefault(reg, b);
      } else if a != t.name && b == t.name {
        assert IsDefault(reg, a);
      }
    }
  }

  /** The first key of `order` whose entry is a default target. */
  function FirstDefault(order: seq<string>, entries: map<string, Target>): (r: Option<string>)
    ensures r.Some? ==> r.value in entries && entries[r.value].default
    ensures r.Some? ==> exists i :: 0 <= i < |order| && order[i] == r.value &&
                          forall j :: 0 <= j < i ==> !(order[j] in entries && entries[order[j]].default)
    ensures r.None? ==> forall i :: 0 <= i < |order| ==> !(order[i] in entries && entries[order[i]].default)
  {
    if order == [] then None
    else if order[0] in entries && entries[order[0]].default then Some(order[0])
    else
      var rest := FirstDefault(order[1..], entries);
      assert forall i :: 1 <= i < |order| ==> order[i] == order[1..][i - 1];
      assert rest.Some? ==> exists i :: 1 <= i < |order| && order[i] == rest.value &&
                              forall j :: 0 <= j < i ==> !(order[j] in entries && entries[order[j]].default) by {
        if rest.Some? {
          var i :| 0 <= i < |order[1..]| && order[1..][i] == rest.value &&
                   forall j :: 0 <= j < i ==> !(order[1..][j] in entries && entries[order[1..][j]].default);
          assert order[i + 1] == rest.value;
          forall j | 0 <= j < i + 1
            ensures !(order[j] in entries && entries[order[j]].default)
          {
            if j > 0 {
              assert order[j] == order[1..][j - 1];
            }
          }
        }
      }
      rest
  }

  /** `get_target`: the entry under `name`, or without a name the first default
      target in insertion order; `None` when there is no such target. */
  function GetTarget(reg: Registry, name: Option<string>): (r: Option<Target>)
    ensures name.Some? ==> (r.Some? <==> name.value in reg.entries)
    ensures name.Some? && r.Some? ==> r.value == reg.entries[name.value]
    ensures name.None? && Valid(reg) ==> (r.Some? <==> exists k :: IsDefault(reg, k))
    ensures Valid(reg) && r.Some? ==> r.value.name in reg.entries && reg.entries[r.value.name] == r.value
    ensures name.None? && r.Some? ==>
              && r.value.default
              && exists i :: 0 <= i < |reg.order| && IsDefault(reg, reg.order[i]) && reg.entries[reg.order[i]] == r.value &&
                   forall j :: 0 <= j < i ==> !IsDefault(reg, reg.order[j])
  {
    match name
    case Some(n) => if n in reg.entries then Some(reg.entries[n]) else None
    case None =>
      match FirstDefault(reg.order, reg.entries)
      case Some(k) =>
        assert IsDefault(reg, k);
        Some(reg.entries[k])
      case None =>
        assert Valid(reg) ==> forall k :: !IsDefault(reg, k) by {
          if Valid(reg) {
            forall k | IsDefault(reg, k)
              ensures false
            {
            }
          }
        }
        None
  }

  /** The `RuntimeError` raised when a second default target is declared. */
  const MoreThanOneDefault: Exc := Exc(Error, "More than one default target is not allowed")

  /** `Target.__call__` on a function named `funcName`: a default target is
      refused while a default exists; otherwise the target is stored under its
      name, replacing any earlier one in its place or else appended last, and
      nothing else changes. */
  function Register(reg: Registry, decl: TargetDecl, funcName: string): (r: Result<Registry>)
    ensures r.Err? <==> decl.default && GetTarget(reg, None).Some?
    ensures r.Err? ==> r.exc == MoreThanOneDefault
    ensures r.Ok? ==> var t := Bind(decl, funcName);
              && t.name in r.value.entries && r.value.entries[t.name] == t
              && (forall k :: k != t.name ==> (k in r.value.entries <==> k in reg.entries))
              && (forall k :: k != t.name && k in reg.entries ==> r.value.entries[k] == reg.entries[k])
              && r.value.order == (if t.name in reg.entries then reg.order else reg.order + [t.name])
    ensures r.Ok? && Valid(reg) ==> Valid(r.value)
    ensures r.Ok? && Valid(reg) && AtMostOneDefault(reg) ==> AtMostOneDefault(r.value)
  {
    if decl.default && GetTarget(reg, None).Some? then Err(MoreThanOneDefault)
    else
      var t := Bind(decl, funcName);
      PutKeepsOneDefault(reg, t);
      Ok(Put(reg, t))
  }

  /** One decorated step: the decorator's arguments and the function's name. */
  datatype Decoration = Decoration(decl: TargetDecl, funcName: string)

  /** The decorations of a module applied in order; the first one that raises
      aborts the rest. */
  function RegisterAll(reg: Registry, ds: seq<Decoration>): Result<Registry>
    decreases |ds|
  {
    if ds == [] then Ok(reg)
    else
      match Register(reg, ds[0].decl, ds[0].funcName)
      case Err(e) => Err(e)
      case Ok(next) => RegisterAll(next, ds[1..])
  }

  /** However targets are declared, the registry never holds two defaults. */
  lemma {:induction false} RegistrationKeepsOneDefault(reg: Registry, ds: seq<Decoration>)
    requires Valid(reg) && AtMostOneDefault(reg)
    ensures RegisterAll(reg, ds).Ok? ==> Valid(RegisterAll(reg, ds).value) && AtMostOneDefault(RegisterAll(reg, ds).value)
    decreases |ds|
  {
    if ds != [] {
      var first := Register(reg, ds[0].decl, ds[0].funcName);
      if first.Ok? {
        RegistrationKeepsOneDefault(first.value, ds[1..]);
      }
    }
  }

  /** The registry after `make` ran (or did not run) a target, what `make`
      yielded, and whether the target's step ran. */
  datatype MakeStep = MakeStep(after: Registry, result: Result<Value>, ran: bool)

  /** `make(name)`: without a matching target nothing runs and nothing
      changes; otherwise the target's wrapper is called, its state is stored
      back, its exception propagates, and its return value is dropped. */
  function Make(reg: Registry, name: Option<string>, step: Result<Value>): (r: MakeStep)
    ensures GetTarget(reg, name).None? ==> r == MakeStep(reg, Ok(VNone), false)
    ensures GetTarget(reg, name).Some? ==>
              var inv := Invoke(GetTarget(reg, name).value, step);
              && r.ran == inv.ran
              && r.after == Put(reg, inv.after)
              && (r.result.Err? <==> inv.result.Err?)
              && (r.result.Err? ==> r.result == inv.result)
              && (r.result.Ok? ==> r.result.value == VNone)
    ensures Valid(reg) ==> Valid(r.after) && r.after.order == reg.order
    ensures Valid(reg) && AtMostOneDefault(reg) ==> AtMostOneDefault(r.after)
  {
    match GetTarget(reg, name)
    case None => MakeStep(reg, Ok(VNone), false)
    case Some(t) =>
      var inv := Invoke(t, step);
      assert Valid(reg) && AtMostOneDefault(reg) && inv.after.default ==>
               forall k :: k != inv.after.name ==> !IsDefault(reg, k) by {
        if Valid(reg) && AtMostOneDefault(reg) && inv.after.default {
          assert IsDefault(reg, t.name);
        }
      }
      PutKeepsOneDefault(reg, inv.after);
      MakeStep(Put(reg, inv.after), if inv.result.Err? then inv.result else Ok(VNone), inv.ran)
  }

  /** The five targets the Makefile declares, in file order; `all` is the
      default. */
  function MakefileDecorations(): seq<Decoration> {
    [ Decoration(DefaultDecl("test"), "target_test"),
      Decoration(DefaultDecl("build"), "target_build"),
      Decoration(DefaultDecl("install"), "target_install"),
      Decoration(DefaultDecl("uninstall"), "target_uninstall"),
      Decoration(TargetDecl(Some("all"), true, 1, false), "_all")
    ]
  }

  /** A freshly registered non-default target with the default limit. */
  function PlainTarget(name: string): Target {
    Target(name, false, 1, false, 0, VNone)
  }

  const AllTarget: Target := Target("all", true, 1, false, 0, VNone)

  /** The registry with `t` added as a new last entry. */
  function Appended(reg: Registry, t: Target): Registry {
    Registry(reg.order + [t.name], reg.entries[t.name := t])
  }

  /** Unfolds one registration of `RegisterAll` that stores a new name. */
  lemma RegisterAllNew(reg: Registry, ds: seq<Decoration>, t: Target)
    requires ds != []
    requires !ds[0].decl.default || GetTarget(reg, None).None?
    requires Bind(ds[0].decl, ds[0].funcName) == t && t.name !in reg.entries
    ensures RegisterAll(reg, ds) == RegisterAll(Appended(reg, t), ds[1..])
  {
    assert Register(reg, ds[0].decl, ds[0].funcName) == Ok(Appended(reg, t));
  }

  /** The registry once the four plain targets are declared. */
  function PlainTargets(): Registry {
    Appended(Appended(Appended(Appended(Empty, PlainTarget("test")), PlainTarget("build")),
                      PlainTarget("install")), PlainTarget("uninstall"))
  }

  lemma PlainTargetsHaveNoDefault()
    ensures AllTarget.name !in PlainTargets().entries && AllTarget.name !in PlainTargets().order
    ensures GetTarget(PlainTargets(), None) == None
  {
    var r := PlainTargets();
    assert r.order == ["test", "build", "install", "uninstall"];
    assert FirstDefault(r.order[3..], r.entries) == None;
    assert FirstDefault(r.order[2..], r.entries) == None;
    assert FirstDefault(r.order[1..], r.entries) == None;
  }

  lemma MakefileOrder()
    ensures Appended(PlainTargets(), AllTarget).order == ["test", "build", "install", "uninstall", "all"]
  {
  }

  /** A default target added last to a registry without one is the target
      `get_target()` finds. */
  lemma AppendedDefaultFound(reg: Registry, t: Target)
    requires GetTarget(reg, None).None? && t.default && t.name !in reg.order
    ensures GetTarget(Appended(reg, t), None) == Some(t)
  {
    var r := Appended(reg, t);
    assert FirstDefault(reg.order, reg.entries).None?;
    assert r.order[|reg.order|] == t.name;
    match FirstDefault(r.order, r.entries)
    case None =>
      assert false;
    case Some(k) =>
      var i :| 0 <= i < |r.order| && r.order[i] == k &&
               forall j :: 0 <= j < i ==> !(r.order[j] in r.entries && r.entries[r.order[j]].default);
      if i < |reg.order| {
        assert false;
      }
  }

  /** Registering a plain target under a new name appends it. */
  lemma RegisterAllPlain(reg: Registry, ds: seq<Decoration>, name: string)
    requires ds != [] && ds[0].decl == DefaultDecl(name) && name !in reg.entries
    ensures RegisterAll(reg, ds) == RegisterAll(Appended(reg, PlainTarget(name)), ds[1..])
  {
    RegisterAllNew(reg, ds, PlainTarget(name));
  }

  /** Each plain target's name is new when it is declared. */
  lemma PlainNamesFresh(r1: Registry, r2: Registry, r3: Registry)
    requires r1 == Appended(Empty, PlainTarget("test"))
    requires r2 == Appended(r1, PlainTarget("build"))
    requires r3 == Appended(r2, PlainTarget("install"))
    ensures "build" !in r1.entries && "install" !in r2.entries && "uninstall" !in r3.entries
  {
  }

  /** The four plain targets register one after the other. */
  lemma RegisterPlainTargets(ds: seq<Decoration>)
    requires ds == MakefileDecorations()
    ensures RegisterAll(Empty, ds) == RegisterAll(PlainTargets(), ds[4..])
  {
    var r1 := Appended(Empty, PlainTarget("test"));
    var r2 := Appended(r1, PlainTarget("build"));
    var r3 := Appended(r2, PlainTarget("install"));
    PlainNamesFresh(r1, r2, r3);
    assert ds[1..][1..] == ds[2..];
    assert ds[2..][1..] == ds[3..];
    assert ds[3..][1..] == ds[4..];
    RegisterAllPlain(Empty, ds, "test");
    RegisterAllPlain(r1, ds[1..], "build");
    RegisterAllPlain(r2, ds[2..], "install");
    RegisterAllPlain(r3, ds[3..], "uninstall");
  }

  /** Importing the Makefile registers all five targets, in file order. */
  lemma MakefileRegistry(ds: seq<Decoration>)
    requires ds == MakefileDecorations()
    ensures RegisterAll(Empty, ds) == Ok(Appended(PlainTargets(), AllTarget))
  {
    RegisterPlainTargets(ds);
    PlainTargetsHaveNoDefault();
    RegisterAllNew(PlainTargets(), ds[4..], AllTarget);
    assert ds[4..][1..] == [];
  }

  /** In the Makefile's registry `all` comes last and is the target `make()`
      without a name picks; a further default target would be refused. */
  lemma MakefileDefaultIsAll(extra: TargetDecl, funcName: string)
    requires extra.default
    ensures Appended(PlainTargets(), AllTarget).order == ["test", "build", "install", "uninstall", "all"]
    ensures GetTarget(Appended(PlainTargets(), AllTarget), None) == Some(AllTarget)
    ensures Register(Appended(PlainTargets(), AllTarget), extra, funcName) == Err(MoreThanOneDefault)
  {
    PlainTargetsHaveNoDefault();
    AppendedDefaultFound(PlainTargets(), AllTarget);
    MakefileOrder();
  }

  /** Making the same target twice under the default limit runs its step once:
      the second `make` finds the limit reached and changes nothing. */
  lemma MakeTwiceRunsOnce(reg: Registry, name: string, v: Value, again: Result<Value>)
    requires Valid(reg) && name in reg.entries
    requires reg.entries[name].callCounter == 0 && reg.entries[name].callLimit == 1 && !reg.entries[name].callLimitRaise
    ensures Make(reg, Some(name), Ok(v)).ran
    ensures var second := Make(Make(reg, Some(name), Ok(v)).after, Some(name), again);
            && !second.ran
            && second.result == Ok(VNone)
            && second.after == Make(reg, Some(name), Ok(v)).after
            && second.after.entries[name].lastResult == v
  {
  }
}
