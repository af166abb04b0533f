/** Target derivation of the Homebrew formula publisher (`Targets::from` in
    src/brew/mod.rs): the release packages become either one platform-less
    `Single` target or a list of per-OS `Multi` targets. */
module BrewTargets {
  import opened Wrappers

  /** The build module's `Os` and `Arch` enums are not part of this model;
      only their equality matters here, so they are represented by their names. */
  type Os = string
  type Arch = string

  /** A release asset: where it was uploaded, its checksum and, for
      platform-specific builds, the platform it was built for. */
  datatype Package = Package(url: string, sha256: string, os: Option<Os>, arch: Option<Arch>)

  datatype BrewArch = BrewArch(arch: Arch, url: string, hash: string)
  datatype SingleTarget = SingleTarget(url: string, hash: string)
  datatype MultiTarget = MultiTarget(os: Os, archs: seq<BrewArch>)
  datatype Target = Single(single: SingleTarget) | Multi(multi: MultiTarget)
  datatype Targets = Targets(items: seq<Target>)

  predicate Untagged(p: Package) {
    p.arch.None? && p.os.None?
  }

  predicate FullyTagged(p: Package) {
    p.os.Some? && p.arch.Some?
  }

  predicate AllTagged(ps: seq<Package>) {
    forall i :: 0 <= i < |ps| ==> FullyTagged(ps[i])
  }

  /** The branch of `Targets::from` that groups packages by OS. */
  predicate TakesMultiBranch(ps: seq<Package>) {
    ps != [] && !Untagged(ps[0])
  }

  /** The inputs on which `Targets::from` does not panic: in the grouping
      branch every group key and every arch is unwrapped. */
  predicate FromDefined(ps: seq<Package>) {
    TakesMultiBranch(ps) ==> AllTagged(ps)
  }

  // ---------------------------------------------------------------------------
  // itertools' `group_by`: maximal runs of consecutive packages with equal `os`
  // ---------------------------------------------------------------------------

  datatype Group = Group(key: Option<Os>, members: seq<Package>)

  function Flatten(gs: seq<Group>): seq<Package> {
    if gs == [] then [] else gs[0].members + Flatten(gs[1..])
  }

  /** `gs` cuts `ps` into non-empty pieces, in order, each made of packages
      sharing the piece's key, with no two neighbouring pieces sharing a key:
      the pieces are the maximal runs of equal `os`. */
  ghost predicate IsRunPartition(gs: seq<Group>, ps: seq<Package>) {
    && Flatten(gs) == ps
    && (forall i :: 0 <= i < |gs| ==> gs[i].members != [])
    && (forall i, j :: 0 <= i < |gs| && 0 <= j < |gs[i].members| ==> gs[i].members[j].os == gs[i].key)
    && (forall i :: 0 < i < |gs| ==> gs[i - 1].key != gs[i].key)
  }

  function GroupByOs(ps: seq<Package>): (gs: seq<Group>)
    ensures IsRunPartition(gs, ps)
    ensures ps != [] ==> gs != [] && gs[0].key == ps[0].os
  {
    if ps == [] then []
    else
      var rest := GroupByOs(ps[1..]);
      assert ps == [ps[0]] + ps[1..];
      if rest != [] && rest[0].key == ps[0].os then
        ExtendFirstRun(ps[0], rest, ps[1..]);
        [Group(ps[0].os, [ps[0]] + rest[0].members)] + rest[1..]
      else
        PrependRun(ps[0], rest, ps[1..]);
        [Group(ps[0].os, [ps[0]])] + rest
  }

  /** A package whose OS differs from the first run's starts a run of its own. */
  lemma PrependRun(p: Package, rest: seq<Group>, tail: seq<Package>)
    requires IsRunPartition(rest, tail)
    requires rest != [] ==> rest[0].key != p.os
    ensures IsRunPartition([Group(p.os, [p])] + rest, [p] + tail)
  {
  }

  /** A package with the first run's OS joins that run. */
  lemma ExtendFirstRun(p: Package, rest: seq<Group>, tail: seq<Package>)
    requires IsRunPartition(rest, tail)
    requires rest != [] && rest[0].key == p.os
    ensures IsRunPartition([Group(p.os, [p] + rest[0].members)] + rest[1..], [p] + tail)
  {
  }

  /** Removing the first package of a maximal-run partition: its run goes away
      when it had one member, and loses its head otherwise. */
  lemma DropFirstPackage(gs: seq<Group>, ps: seq<Package>)
    requires IsRunPartition(gs, ps) && gs != []
    ensures ps != [] && ps[0] == gs[0].members[0] && gs[0].key == ps[0].os
    ensures |gs[0].members| == 1 ==> IsRunPartition(gs[1..], ps[1..])
    ensures |gs[0].members| > 1 ==> IsRunPartition([Group(gs[0].key, gs[0].members[1..])] + gs[1..], ps[1..])
  {
  }

  /** Any partition of `ps` into maximal runs is the one `GroupByOs` builds. */
  lemma {:induction false} RunPartitionIsGroupByOs(gs: seq<Group>, ps: seq<Package>)
    requires IsRunPartition(gs, ps)
    ensures gs == GroupByOs(ps)
    decreases |ps|
  {
    if ps == [] {
      FlattenNonEmpty(gs);
    } else {
      FlattenNonEmpty(gs);
      DropFirstPackage(gs, ps);
      var g := gs[0];
      var rest := GroupByOs(ps[1..]);
      if |g.members| == 1 {
        RunPartitionIsGroupByOs(gs[1..], ps[1..]);
        assert gs == [g] + rest;
        if rest != [] {
          assert rest[0].key == gs[1].key != g.key;
        }
        assert g == Group(ps[0].os, [ps[0]]);
      } else {
        var gs' := [Group(g.key, g.members[1..])] + gs[1..];
        RunPartitionIsGroupByOs(gs', ps[1..]);
        assert g.members == [ps[0]] + rest[0].members;
        assert gs == [Group(ps[0].os, [ps[0]] + rest[0].members)] + rest[1..];
      }
    }
  }

  lemma FlattenNonEmpty(gs: seq<Group>)
    requires forall i :: 0 <= i < |gs| ==> gs[i].members != []
    ensures gs != [] ==> Flatten(gs) != []
  {
  }

  /** Maximal-run partitions are unique. */
  lemma RunPartitionUnique(gs1: seq<Group>, gs2: seq<Group>, ps: seq<Package>)
    requires IsRunPartition(gs1, ps) && IsRunPartition(gs2, ps)
    ensures gs1 == gs2
  {
    RunPartitionIsGroupByOs(gs1, ps);
    RunPartitionIsGroupByOs(gs2, ps);
  }

  // ---------------------------------------------------------------------------
  // From groups to targets
  // ---------------------------------------------------------------------------

  function ToBrewArch(p: Package): BrewArch
    requires p.arch.Some?
  {
    BrewArch(p.arch.value, p.url, p.sha256)
  }

  predicate AllArchsTagged(ps: seq<Package>) {
    forall i :: 0 <= i < |ps| ==> ps[i].arch.Some?
  }

  /** The `.map(|p| BrewArch { .. }).collect()` over one group. */
  function BrewArchs(ps: seq<Package>): seq<BrewArch>
    requires AllArchsTagged(ps)
  {
    seq(|ps|, i requires 0 <= i < |ps| => ToBrewArch(ps[i]))
  }

  predicate GroupTagged(g: Group) {
    g.key.Some? && AllArchsTagged(g.members)
  }

  function ToMultiTarget(g: Group): MultiTarget
    requires GroupTagged(g)
  {
    MultiTarget(g.key.value, BrewArchs(g.members))
  }

  function MultiTargets(gs: seq<Group>): seq<Target>
    requires forall i :: 0 <= i < |gs| ==> GroupTagged(gs[i])
  {
    if gs == [] then [] else [Multi(ToMultiTarget(gs[0]))] + MultiTargets(gs[1..])
  }

  /** Every arch entry of the targets, in order, with the OS of its entry. */
  function Placements(ts: seq<Target>): seq<(Os, BrewArch)> {
    if ts == [] then []
    else
      match ts[0]
      case Single(_) => Placements(ts[1..])
      case Multi(m) => seq(|m.archs|, k requires 0 <= k < |m.archs| => (m.os, m.archs[k])) + Placements(ts[1..])
  }

  /** What each input package should become in the grouped output. */
  function Placed(ps: seq<Package>): seq<(Os, BrewArch)>
    requires AllTagged(ps)
  {
    seq(|ps|, i requires 0 <= i < |ps| => (ps[i].os.value, ToBrewArch(ps[i])))
  }

  /** The shape of the multi branch's result: only `Multi` entries, none empty,
      no two neighbours for the same OS, and reading the entries in order
      gives back every package, in input order, under its own OS. */
  ghost predicate IsRunLayout(ts: seq<Target>, ps: seq<Package>)
    requires AllTagged(ps)
  {
    && (forall i :: 0 <= i < |ts| ==> ts[i].Multi? && ts[i].multi.archs != [])
    && (forall i :: 0 < i < |ts| ==> ts[i - 1].multi.os != ts[i].multi.os)
    && Placements(ts) == Placed(ps)
  }

  lemma PlacedAppend(a: seq<Package>, b: seq<Package>)
    requires AllTagged(a) && AllTagged(b)
    ensures AllTagged(a + b) && Placed(a + b) == Placed(a) + Placed(b)
  {
  }

  lemma {:induction false} MultiTargetsLayout(gs: seq<Group>, ps: seq<Package>)
    requires IsRunPartition(gs, ps) && AllTagged(ps)
    ensures forall i :: 0 <= i < |gs| ==> GroupTagged(gs[i])
    ensures IsRunLayout(MultiTargets(gs), ps)
    decreases |gs|
  {
    if gs != [] {
      var g, tail := gs[0], gs[1..];
      var rest := Flatten(tail);
      assert ps == g.members + rest;
      assert AllTagged(g.members) by {
        forall j | 0 <= j < |g.members| ensures FullyTagged(g.members[j]) {
          assert g.members[j] == ps[j];
        }
      }
      assert AllTagged(rest) by {
        forall j | 0 <= j < |rest| ensures FullyTagged(rest[j]) {
          assert rest[j] == ps[|g.members| + j];
        }
      }
      assert IsRunPartition(tail, rest) by {
        forall i | 0 < i < |tail| ensures tail[i - 1].key != tail[i].key {
          assert tail[i - 1] == gs[i] && tail[i] == gs[i + 1];
        }
      }
      MultiTargetsLayout(tail, rest);
      assert GroupTagged(g) by {
        assert g.members[0] == ps[0];
      }
      forall i | 0 < i < |gs| ensures GroupTagged(gs[i]) {
        assert gs[i] == tail[i - 1];
      }
      PlacedAppend(g.members, rest);
      var ts := MultiTargets(gs);
      var m := ToMultiTarget(g);
      assert ts == [Multi(m)] + MultiTargets(tail);
      assert ts[1..] == MultiTargets(tail);
      var head := seq(|m.archs|, k requires 0 <= k < |m.archs| => (m.os, m.archs[k]));
      assert head == Placed(g.members) by {
        forall k | 0 <= k < |head| ensures head[k] == Placed(g.members)[k] {
          assert g.members[k].os == g.key;
        }
      }
      assert Placements(ts) == head + Placements(MultiTargets(tail));
      forall i | 0 < i < |ts| ensures ts[i - 1].multi.os != ts[i].multi.os {
        if i == 1 {
          assert ts[1] == MultiTargets(tail)[0];
          assert MultiTargets(tail)[0] == Multi(ToMultiTarget(tail[0]));
          assert gs[0].key != gs[1].key;
        } else {
          assert ts[i - 1] == MultiTargets(tail)[i - 2] && ts[i] == MultiTargets(tail)[i - 1];
        }
      }
      forall i | 0 <= i < |ts| ensures ts[i].Multi? && ts[i].multi.archs != [] {
        if i > 0 { assert ts[i] == MultiTargets(tail)[i - 1]; }
      }
    }
  }

  /** The `j`-th member of the `i`-th group sits in `Flatten(gs)` after all
      members of the groups before it. */
  lemma {:induction false} FlattenMember(gs: seq<Group>, i: nat, j: nat)
    requires i < |gs| && j < |gs[i].members|
    ensures exists x :: 0 <= x < |Flatten(gs)| && Flatten(gs)[x] == gs[i].members[j] && (i > 0 ==> x >= |gs[0].members|)
    decreases i
  {
    var f := Flatten(gs);
    assert f == gs[0].members + Flatten(gs[1..]);
    if i == 0 {
      assert f[j] == gs[0].members[j];
    } else {
      FlattenMember(gs[1..], i - 1, j);
      var x :| 0 <= x < |Flatten(gs[1..])| && Flatten(gs[1..])[x] == gs[1..][i - 1].members[j];
      assert f[|gs[0].members| + x] == gs[i].members[j];
    }
  }

  // ---------------------------------------------------------------------------
  // Targets::from
  // ---------------------------------------------------------------------------

  function TargetsFrom(ps: seq<Package>): (t: Targets)
    requires FromDefined(ps)
    ensures ps == [] ==> t.items == []
    ensures ps != [] && Untagged(ps[0]) ==> t.items == [Single(SingleTarget(ps[0].url, ps[0].sha256))]
    ensures TakesMultiBranch(ps) ==> IsRunLayout(t.items, ps)
  {
    if ps == [] then
      Targets([])
    else if ps[0].arch.None? && ps[0].os.None? then
      Targets([Single(SingleTarget(ps[0].url, ps[0].sha256))])
    else
      var gs := GroupByOs(ps);
      MultiTargetsLayout(gs, ps);
      Targets(MultiTargets(gs))
  }

  /** In the multi branch, every package becomes exactly one arch entry. */
  lemma ArchCountIsPackageCount(ps: seq<Package>)
    requires TakesMultiBranch(ps) && AllTagged(ps)
    ensures |Placements(TargetsFrom(ps).items)| == |ps|
  {
  }

  /** An OS whose packages are not adjacent in the input gets one `Multi`
      entry per run: `[linux, darwin, linux]` yields three entries. */
  lemma ReappearingOsStartsNewEntry(a: BrewArch, b: BrewArch, c: BrewArch)
    ensures var ps := [Package(a.url, a.hash, Some("linux"), Some(a.arch)),
                       Package(b.url, b.hash, Some("darwin"), Some(b.arch)),
                       Package(c.url, c.hash, Some("linux"), Some(c.arch))];
            TargetsFrom(ps).items == [Multi(MultiTarget("linux", [a])),
                                      Multi(MultiTarget("darwin", [b])),
                                      Multi(MultiTarget("linux", [c]))]
  {
    var p0 := Package(a.url, a.hash, Some("linux"), Some(a.arch));
    var p1 := Package(b.url, b.hash, Some("darwin"), Some(b.arch));
    var p2 := Package(c.url, c.hash, Some("linux"), Some(c.arch));
    var g0, g1, g2 := Group(Some("linux"), [p0]), Group(Some("darwin"), [p1]), Group(Some("linux"), [p2]);
    AlternatingRuns(p0, p1, p2);
    SingletonRunsToTargets(g0, g1, g2);
    assert ToMultiTarget(g0) == MultiTarget("linux", [a]) by { assert BrewArchs([p0]) == [a]; }
    assert ToMultiTarget(g1) == MultiTarget("darwin", [b]) by { assert BrewArchs([p1]) == [b]; }
    assert ToMultiTarget(g2) == MultiTarget("linux", [c]) by { assert BrewArchs([p2]) == [c]; }
  }

  lemma AlternatingRuns(p0: Package, p1: Package, p2: Package)
    requires p0.os != p1.os && p1.os != p2.os
    ensures GroupByOs([p0, p1, p2]) == [Group(p0.os, [p0]), Group(p1.os, [p1]), Group(p2.os, [p2])]
  {
    var g0, g1, g2 := Group(p0.os, [p0]), Group(p1.os, [p1]), Group(p2.os, [p2]);
    PrependRun(p2, [], []);
    assert [g2] == [g2] + [] && [p2] == [p2] + [];
    PrependRun(p1, [g2], [p2]);
    assert [g1, g2] == [g1] + [g2] && [p1, p2] == [p1] + [p2];
    PrependRun(p0, [g1, g2], [p1, p2]);
    assert [g0, g1, g2] == [g0] + [g1, g2] && [p0, p1, p2] == [p0] + [p1, p2];
    RunPartitionIsGroupByOs([g0, g1, g2], [p0, p1, p2]);
  }

  lemma SingletonRunsToTargets(g0: Group, g1: Group, g2: Group)
    requires GroupTagged(g0) && GroupTagged(g1) && GroupTagged(g2)
    ensures MultiTargets([g0, g1, g2]) == [Multi(ToMultiTarget(g0)), Multi(ToMultiTarget(g1)), Multi(ToMultiTarget(g2))]
  {
    assert [g0, g1, g2][1..] == [g1, g2] && [g1, g2][1..] == [g2] && [g2][1..] == [];
    assert MultiTargets([g2]) == [Multi(ToMultiTarget(g2))];
    assert MultiTargets([g1, g2]) == [Multi(ToMultiTarget(g1))] + MultiTargets([g2]);
    assert MultiTargets([g0, g1, g2]) == [Multi(ToMultiTarget(g0))] + MultiTargets([g1, g2]);
  }

  /** Packages whose equal OSes are adjacent in the input. */
  predicate OsContiguous(ps: seq<Package>) {
    forall i, j, k :: 0 <= i < j < k < |ps| && ps[i].os == ps[k].os ==> ps[j].os == ps[i].os
  }

  predicate KeysDistinct(gs: seq<Group>) {
    forall i, j :: 0 <= i < j < |gs| ==> gs[i].key != gs[j].key
  }

  /** When the input keeps each OS's packages together, the run grouping is a
      grouping by OS: no two groups share a key. */
  lemma {:induction false} ContiguousGroupsAreDistinct(ps: seq<Package>)
    requires OsContiguous(ps)
    ensures KeysDistinct(GroupByOs(ps))
    decreases |ps|
  {
    if ps != [] {
      var tail := ps[1..];
      assert OsContiguous(tail) by {
        forall i, j, k | 0 <= i < j < k < |tail| && tail[i].os == tail[k].os
          ensures tail[j].os == tail[i].os
        {
          assert tail[i] == ps[i + 1] && tail[j] == ps[j + 1] && tail[k] == ps[k + 1];
        }
      }
      ContiguousGroupsAreDistinct(tail);
      var rest := GroupByOs(tail);
      var gs := GroupByOs(ps);
      if rest != [] && rest[0].key == ps[0].os {
        assert gs == [Group(ps[0].os, [ps[0]] + rest[0].members)] + rest[1..];
        forall i, j | 0 <= i < j < |gs| ensures gs[i].key != gs[j].key {
          assert gs[j] == rest[j];
              if i > 0 { assert gs[i] == rest[i]; } else { assert gs[0].key == rest[0].key; }
        }
      } else {
        assert gs == [Group(ps[0].os, [ps[0]])] + rest;
        forall i, j | 0 <= i < j < |gs| ensures gs[i].key != gs[j].key {
          assert gs[j] == rest[j - 1];
          if i > 0 {
            assert gs[i] == rest[i - 1];
          } else if j > 1 {
            // A later run rest[j - 1] has a package at tail index x beyond
            // rest[0]; ps[1], the head of rest[0], lies between ps[0] and it
            // and has another OS, so contiguity keeps ps[0]'s OS out of it.
            FlattenMember(rest, j - 1, 0);
            var x :| 0 <= x < |Flatten(rest)| && Flatten(rest)[x] == rest[j - 1].members[0] && x >= |rest[0].members|;
            assert tail[x].os == rest[j - 1].key;
            assert tail[0] == rest[0].members[0];
            assert ps[1].os == rest[0].key != ps[0].os;
            assert ps[x + 1] == tail[x];
            assert 0 < 1 < x + 1 < |ps|;
          }
        }
      }
    }
  }
}
