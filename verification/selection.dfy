/** Which keg of each rack `brew linkapps` publishes when no keg is named
    on the command line: the linked keg if there is one, else the newest. */
module Selection {
  import opened Wrappers
  import opened Files

  /** An application bundle found inside a keg (`Keg#apps`). */
  datatype App = App(path: Path, basename: string)

  /** `app.basename` is the last component of the bundle's path: a
      non-empty name without '/', after the path's last '/'. */
  predicate NamedAfterPath(app: App) {
    && app.basename != [] && '/' !in app.basename
    && |app.basename| < |app.path|
    && app.path[|app.path| - |app.basename| - 1..] == "/" + app.basename
  }

  /** One installed version of a formula. `version` is compared with the
      three-way comparison `cmp` (Ruby's `<=>` on versions). */
  datatype Keg<V> = Keg(path: Path, version: V, linked: bool, apps: seq<App>)

  /** The keg list passed by the caller (`ARGV.kegs`) when names were given. */
  datatype KegArgs<V> = NoNames | Names(kegs: seq<Keg<V>>)

  /** `cmp` behaves as `<=>` on a total order: opposite signs when the
      arguments are swapped, and "at least" is transitive. */
  ghost predicate IsTotalOrder<V(!new)>(cmp: (V, V) -> int) {
    && (forall a, b :: cmp(a, b) > 0 <==> cmp(b, a) < 0)
    && (forall a, b, c :: cmp(a, b) >= 0 && cmp(b, c) >= 0 ==> cmp(a, c) >= 0)
  }

  /** `keg.detect(&:linked?)`: the first linked keg, in subdirectory order. */
  function FirstLinked<V>(kegs: seq<Keg<V>>): (r: Option<Keg<V>>)
    ensures r.None? <==> forall k :: k in kegs ==> !k.linked
    ensures r.Some? ==> exists i :: 0 <= i < |kegs| && kegs[i] == r.value && r.value.linked &&
                                    forall j :: 0 <= j < i ==> !kegs[j].linked
  {
    if kegs == [] then None
    else if kegs[0].linked then Some(kegs[0])
    else
      var r := FirstLinked(kegs[1..]);
      assert forall k :: k in kegs[1..] ==> k in kegs;
      assert r.Some? ==> forall i :: 0 <= i < |kegs| - 1 && kegs[1..][i] == r.value ==> kegs[i + 1] == r.value;
      r
  }

  /** Ruby's `max` with a block, scanning `rest` from the left: a later keg
      replaces the best so far only when it compares strictly greater. */
  function MaxFrom<V>(best: Keg<V>, rest: seq<Keg<V>>, cmp: (V, V) -> int): (r: Keg<V>)
    ensures r == best || r in rest
    decreases |rest|
  {
    if rest == [] then best
    else
      var next := if cmp(rest[0].version, best.version) > 0 then rest[0] else best;
      MaxFrom(next, rest[1..], cmp)
  }

  /** `keg.max { |a, b| a.version <=> b.version }` on a non-empty rack. */
  function MaxByVersion<V>(kegs: seq<Keg<V>>, cmp: (V, V) -> int): (r: Keg<V>)
    requires kegs != []
    ensures r in kegs
  {
    MaxFrom(kegs[0], kegs[1..], cmp)
  }

  /** The block of `Formula.racks.map`: nothing for an empty rack, else the
      first linked keg, else the keg with the greatest version. */
  function CurrentKeg<V>(rack: seq<Keg<V>>, cmp: (V, V) -> int): (r: Option<Keg<V>>)
    ensures r.None? <==> rack == []
    ensures r.Some? ==> r.value in rack
    ensures r.Some? ==> (r.value.linked <==> exists k :: k in rack && k.linked)
  {
    if rack == [] then None
    else
      match FirstLinked(rack)
      case Some(k) => Some(k)
      case None => Some(MaxByVersion(rack, cmp))
  }

  /** `Formula.racks.map { ... }`: one entry per rack, in rack order. */
  function CurrentKegs<V>(racks: seq<seq<Keg<V>>>, cmp: (V, V) -> int): (r: seq<Option<Keg<V>>>)
    ensures |r| == |racks|
    ensures forall i :: 0 <= i < |racks| ==> r[i] == CurrentKeg(racks[i], cmp)
  {
    if racks == [] then [] else [CurrentKeg(racks[0], cmp)] + CurrentKegs(racks[1..], cmp)
  }

  /** The kegs `linkapps` walks: the caller's kegs unchanged when names
      were given, else the current keg (or nothing) of every rack. */
  function KegsToLink<V>(args: KegArgs<V>, racks: seq<seq<Keg<V>>>, cmp: (V, V) -> int): (r: seq<Option<Keg<V>>>)
    ensures args.Names? ==> |r| == |args.kegs| && forall i :: 0 <= i < |r| ==> r[i] == Some(args.kegs[i])
    ensures args.NoNames? ==> |r| == |racks|
    ensures args.NoNames? ==> forall i :: 0 <= i < |r| ==>
              (r[i].None? <==> racks[i] == []) && (r[i].Some? ==> r[i].value in racks[i])
  {
    match args
    case Names(kegs) => seq(|kegs|, i requires 0 <= i < |kegs| => Some(kegs[i]))
    case NoNames => CurrentKegs(racks, cmp)
  }

  /** The best keg found by `MaxFrom` is at least as new as the starting
      keg and as every keg it scanned. */
  lemma {:induction false} MaxFromIsGreatest<V(!new)>(best: Keg<V>, rest: seq<Keg<V>>, cmp: (V, V) -> int)
    requires IsTotalOrder(cmp)
    ensures cmp(MaxFrom(best, rest, cmp).version, best.version) >= 0
    ensures forall k :: k in rest ==> cmp(MaxFrom(best, rest, cmp).version, k.version) >= 0
    decreases |rest|
  {
    assert cmp(best.version, best.version) == 0;
    if rest != [] {
      var next := if cmp(rest[0].version, best.version) > 0 then rest[0] else best;
      MaxFromIsGreatest(next, rest[1..], cmp);
      var r := MaxFrom(next, rest[1..], cmp);
      assert cmp(next.version, best.version) >= 0;
      assert cmp(next.version, rest[0].version) >= 0;
      forall k | k in rest ensures cmp(r.version, k.version) >= 0 {
        if k != rest[0] { assert k in rest[1..]; }
      }
    }
  }

  /** A rack with a linked keg publishes the first linked keg in
      subdirectory order, whatever the versions of the others. */
  lemma LinkedKegWins<V>(rack: seq<Keg<V>>, cmp: (V, V) -> int, i: nat)
    requires i < |rack| && rack[i].linked
    requires forall j :: 0 <= j < i ==> !rack[j].linked
    ensures CurrentKeg(rack, cmp) == Some(rack[i])
  {
    var r := FirstLinked(rack);
    var i' :| 0 <= i' < |rack| && rack[i'] == r.value && r.value.linked &&
              forall j :: 0 <= j < i' ==> !rack[j].linked;
    assert i' == i;
  }

  /** A rack without a linked keg publishes one of its own kegs whose
      version is at least that of every keg in the rack. */
  lemma UnlinkedRackTakesNewest<V(!new)>(rack: seq<Keg<V>>, cmp: (V, V) -> int)
    requires IsTotalOrder(cmp)
    requires rack != [] && forall k :: k in rack ==> !k.linked
    ensures CurrentKeg(rack, cmp).Some?
    ensures CurrentKeg(rack, cmp).value in rack
    ensures forall k :: k in rack ==> cmp(CurrentKeg(rack, cmp).value.version, k.version) >= 0
  {
    MaxFromIsGreatest(rack[0], rack[1..], cmp);
    forall k | k in rack ensures k == rack[0] || k in rack[1..] {
      var j :| 0 <= j < |rack| && rack[j] == k;
      if j > 0 { assert rack[1..][j - 1] == k; }
    }
  }
}
