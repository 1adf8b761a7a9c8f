/** The registry of voice configs and the resolution of parent overlays. */
module Registry {
  import opened Common
  import opened Merge

  type Configs = map<string, Fields>

  datatype Parent = NoParent | Named(name: string) | NotAString

  /** `raw.get("meta", {}).get("parent")`, JSON null counting as absent. */
  function ParentOf(raw: Fields): Parent {
    if "meta" !in raw || !raw["meta"].Object? || "parent" !in raw["meta"].fields then NoParent
    else match raw["meta"].fields["parent"]
      case Null => NoParent
      case Text(name) => Named(name)
      case _ => NotAString
  }

  /** The outcomes of `_resolve_raw`; the last three are the exceptions it raises, with the config at fault. */
  datatype Resolution = Resolved(raw: Fields) | Cyclic(at: string) | Unknown(name: string) | BadParent(of: string)

  function Resolve(configs: Configs, name: string, seen: set<string>): Resolution
    decreases configs.Keys - seen
  {
    if name in seen then Cyclic(name)
    else if name !in configs then Unknown(name)
    else match ParentOf(configs[name])
      case NoParent => Resolved(configs[name])
      case NotAString => BadParent(name)
      case Named(parent) =>
        match Resolve(configs, parent, seen + {name})
        case Resolved(base) => Resolved(DeepMerge(base, configs[name]))
        case failure => failure
  }

  // ---------------------------------------------------------------- the parent walk

  /** Where following parents has led: still at a name, or stopped for one of three reasons. */
  datatype Place = At(name: string) | AtRoot(root: string) | OutOf(missing: string) | Malformed(bad: string)

  function Next(configs: Configs, place: Place): Place {
    if !place.At? then place
    else if place.name !in configs then OutOf(place.name)
    else match ParentOf(configs[place.name])
      case NoParent => AtRoot(place.name)
      case Named(parent) => At(parent)
      case NotAString => Malformed(place.name)
  }

  function Walk(configs: Configs, name: string, steps: nat): Place {
    if steps == 0 then At(name) else Next(configs, Walk(configs, name, steps - 1))
  }

  /** The configs passed in `steps` steps, the last one first: root-most layer to leaf. */
  function Layers(configs: Configs, name: string, steps: nat): (layers: seq<Fields>)
    requires forall i :: 0 <= i < steps ==> Walk(configs, name, i).At? && Walk(configs, name, i).name in configs
    ensures |layers| == steps
  {
    if steps == 0 then [] else [configs[Walk(configs, name, steps - 1).name]] + Layers(configs, name, steps - 1)
  }

  function FoldMerge(base: Fields, layers: seq<Fields>): Fields
    decreases |layers|
  {
    if layers == [] then base else FoldMerge(DeepMerge(base, layers[0]), layers[1..])
  }

  /** The walk stops at the root after passing `steps` configs. */
  ghost predicate ReachesRoot(configs: Configs, name: string, steps: nat) {
    && steps > 0
    && (forall i :: 0 <= i < steps ==> Walk(configs, name, i).At? && Walk(configs, name, i).name in configs)
    && Walk(configs, name, steps).AtRoot?
  }

  /** The walk comes back to a config. */
  ghost predicate Reenters(configs: Configs, name: string) {
    exists i: nat, j: nat :: i < j && Walk(configs, name, i) == Walk(configs, name, j) && Walk(configs, name, i).At?
  }

  lemma {:induction false} WalkAdds(configs: Configs, name: string, first: nat, more: nat)
    requires Walk(configs, name, first).At?
    ensures Walk(configs, name, first + more) == Walk(configs, Walk(configs, name, first).name, more)
  {
    if more > 0 {
      WalkAdds(configs, name, first, more - 1);
    }
  }

  lemma {:induction false} StoppedStays(configs: Configs, name: string, i: nat, j: nat)
    requires i <= j && !Walk(configs, name, i).At?
    ensures Walk(configs, name, j) == Walk(configs, name, i)
  {
    if i < j {
      StoppedStays(configs, name, i, j - 1);
    }
  }

  /** A walk that comes back never stops. */
  lemma {:induction false} ReenteringNeverStops(configs: Configs, name: string, i: nat, j: nat, k: nat)
    requires i < j && Walk(configs, name, i) == Walk(configs, name, j) && Walk(configs, name, i).At?
    ensures Walk(configs, name, k).At?
  {
    if !Walk(configs, name, k).At? {
      if k <= j {
        StoppedStays(configs, name, k, j);
      } else {
        WalkAdds(configs, name, j, k - j);
        WalkAdds(configs, name, i, k - j);
        ReenteringNeverStops(configs, name, i, j, i + (k - j));
      }
    }
  }

  // ---------------------------------------------------------------- resolution against the walk

  lemma {:induction false} FoldLast(base: Fields, layers: seq<Fields>, leaf: Fields)
    ensures FoldMerge(base, layers + [leaf]) == DeepMerge(FoldMerge(base, layers), leaf)
    decreases |layers|
  {
    if layers == [] {
      assert [leaf][1..] == [];
    } else {
      assert (layers + [leaf])[1..] == layers[1..] + [leaf];
      FoldLast(DeepMerge(base, layers[0]), layers[1..], leaf);
    }
  }

  /** A walk through a parent is the walk from the parent, one step later, with one more layer on top. */
  lemma {:induction false} LayersOnTop(configs: Configs, name: string, parent: string, steps: nat)
    requires name in configs && ParentOf(configs[name]) == Named(parent)
    requires forall i :: 0 <= i < steps ==> Walk(configs, parent, i).At? && Walk(configs, parent, i).name in configs
    ensures forall i :: 0 <= i <= steps ==> Walk(configs, name, i).At? && Walk(configs, name, i).name in configs
    ensures Walk(configs, name, steps + 1) == Walk(configs, parent, steps)
    ensures Layers(configs, name, steps + 1) == Layers(configs, parent, steps) + [configs[name]]
  {
    if steps == 0 {
      assert Walk(configs, name, 1) == Next(configs, Walk(configs, name, 0));
    } else {
      LayersOnTop(configs, name, parent, steps - 1);
    }
  }

  /** `seen` holds names at which the walk has been in its first `t` steps. */
  ghost predicate Visited(configs: Configs, start: string, t: nat, seen: set<string>) {
    forall name :: name in seen ==> exists i :: 0 <= i < t && Walk(configs, start, i) == At(name)
  }

  ghost predicate RootFold(configs: Configs, name: string, steps: nat, raw: Fields) {
    && ReachesRoot(configs, name, steps)
    && var layers := Layers(configs, name, steps);
       raw == FoldMerge(layers[0], layers[1..])
  }

  lemma RootFoldOnTop(configs: Configs, name: string, parent: string, steps: nat, base: Fields)
    requires name in configs && ParentOf(configs[name]) == Named(parent)
    requires RootFold(configs, parent, steps, base)
    ensures RootFold(configs, name, steps + 1, DeepMerge(base, configs[name]))
  {
    LayersOnTop(configs, name, parent, steps);
    var layers := Layers(configs, parent, steps);
    FoldLast(layers[0], layers[1..], configs[name]);
    assert (layers + [configs[name]])[1..] == layers[1..] + [configs[name]];
  }

  lemma RootFoldAtRoot(configs: Configs, name: string)
    requires name in configs && ParentOf(configs[name]) == NoParent
    ensures RootFold(configs, name, 1, configs[name])
  {
    assert Walk(configs, name, 1) == Next(configs, Walk(configs, name, 0));
    assert Layers(configs, name, 1) == [configs[name]];
    assert Layers(configs, name, 1)[1..] == [];
  }

  /** What the call made after `t` hops returns, in terms of the walk from the start. */
  lemma {:induction false} ResolveFollowsWalk(configs: Configs, start: string, t: nat, seen: set<string>)
      returns (stop: nat)
    requires Walk(configs, start, t).At?
    requires Visited(configs, start, t, seen)
    ensures var name := Walk(configs, start, t).name;
            match Resolve(configs, name, seen)
            case Resolved(raw) => RootFold(configs, name, stop, raw)
            case Cyclic(at) => Reenters(configs, start) && Walk(configs, start, stop) == At(at)
            case Unknown(missing) => Walk(configs, start, stop) == OutOf(missing)
            case BadParent(bad) => Walk(configs, start, stop) == Malformed(bad)
    decreases configs.Keys - seen
  {
    var name := Walk(configs, start, t).name;
    stop := t + 1;
    assert Walk(configs, start, t + 1) == Next(configs, Walk(configs, start, t));
    if name in seen {
      stop := t;
      var i :| 0 <= i < t && Walk(configs, start, i) == At(name);
    } else if name in configs && ParentOf(configs[name]).NoParent? {
      stop := 1;
      RootFoldAtRoot(configs, name);
    } else if name in configs && ParentOf(configs[name]).Named? {
      var parent := ParentOf(configs[name]).name;
      stop := ResolveFollowsWalk(configs, start, t + 1, seen + {name});
      match Resolve(configs, parent, seen + {name}) {
        case Resolved(base) =>
          RootFoldOnTop(configs, name, parent, stop, base);
          stop := stop + 1;
        case _ =>
      }
    }
  }

  /**
    Resolution ends on every parent graph, and its outcome is decided by the parent walk alone: the left
    fold of the layers from root to leaf when the walk reaches a root, a cycle error when it comes back,
    and the other errors when it leaves the registry or meets a parent that is not a string.
   */
  lemma ResolutionIsTheWalk(configs: Configs, name: string)
    ensures Resolve(configs, name, {}).Resolved? <==> exists steps: nat :: ReachesRoot(configs, name, steps)
    ensures forall steps: nat :: ReachesRoot(configs, name, steps) ==>
      var layers := Layers(configs, name, steps);
      Resolve(configs, name, {}) == Resolved(FoldMerge(layers[0], layers[1..]))
    ensures Resolve(configs, name, {}).Cyclic? <==> Reenters(configs, name)
    ensures forall missing ::
      (Resolve(configs, name, {}) == Unknown(missing) <==> exists k: nat :: Walk(configs, name, k) == OutOf(missing))
    ensures forall bad ::
      (Resolve(configs, name, {}) == BadParent(bad) <==> exists k: nat :: Walk(configs, name, k) == Malformed(bad))
  {
    assert Walk(configs, name, 0) == At(name);
    var stop := ResolveFollowsWalk(configs, name, 0, {});
    if Reenters(configs, name) {
      var i: nat, j: nat :| i < j && Walk(configs, name, i) == Walk(configs, name, j) && Walk(configs, name, i).At?;
      ReenteringNeverStops(configs, name, i, j, stop);
    }
    forall k: nat | !Walk(configs, name, k).At?
      ensures !Resolve(configs, name, {}).Cyclic? && Walk(configs, name, stop) == Walk(configs, name, k)
    {
      if Reenters(configs, name) {
        var i: nat, j: nat :| i < j && Walk(configs, name, i) == Walk(configs, name, j) && Walk(configs, name, i).At?;
        ReenteringNeverStops(configs, name, i, j, k);
      }
      if stop <= k { StoppedStays(configs, name, stop, k); } else { StoppedStays(configs, name, k, stop); }
    }
    forall steps: nat | ReachesRoot(configs, name, steps)
      ensures steps == stop && Resolve(configs, name, {}).Resolved?
    {
      assert !Walk(configs, name, steps).At?;
    }
  }

  // ---------------------------------------------------------------- the service

  class RegistryService {
    var configs: Configs

    /** Every config is stored under its own non-empty name. */
    ghost predicate Valid()
      reads this
    {
      forall name :: name in configs ==> name != "" && NameOf(configs[name]) == Some(name)
    }

    constructor ()
      ensures Valid() && configs == map[]
    {
      configs := map[];
    }

    /** The latest registration of a name wins; a raw config without a usable name is refused. */
    method RegisterConfig(raw: Fields) returns (result: Result<()>)
      requires Valid()
      modifies this
      ensures Valid()
      ensures match NameOf(raw)
              case None => result == Err("config meta.name is required") && configs == old(configs)
              case Some(name) => result.Ok? && configs == old(configs)[name := raw]
    {
      if "meta" in raw && raw["meta"].Object? && "name" in raw["meta"].fields {
        var name := raw["meta"].fields["name"];
        if name.Text? && name.s != "" {
          configs := configs[name.s := raw];
          return Ok(());
        }
      }
      return Err("config meta.name is required");
    }
  }

  function NameOf(raw: Fields): Option<string> {
    if "meta" in raw && raw["meta"].Object? && "name" in raw["meta"].fields then
      match raw["meta"].fields["name"]
      case Text(name) => if name == "" then None else Some(name)
      case _ => None
    else
      None
  }
}
