/** Counting tablet cells: what creating and recovering cells does to every bundle. */
module Cells {
  import opened ClusterStatus
  import opened World

  lemma {:induction false} CountAppend(a: seq<Cell>, b: seq<Cell>, x: string)
    ensures Count(a + b, x) == Count(a, x) + Count(b, x)
  {
    if a == [] {
      assert a + b == b;
    } else {
      assert (a + b)[0] == a[0] && (a + b)[1..] == a[1..] + b;
      CountAppend(a[1..], b, x);
    }
  }

  /** Creating cells fills only its own bundle, never beyond the request, and exactly on success. */
  lemma {:induction false} CreateCounts(k: Cluster, bundle: string, missing: nat, outs: seq<Outcome>, b: string)
    ensures var r := CreateCells(k, bundle, missing, outs);
      && (b != bundle ==> Count(r.cluster.cells, b) == Count(k.cells, b))
      && Count(k.cells, bundle) <= Count(r.cluster.cells, bundle) <= Count(k.cells, bundle) + missing
      && (r.ok ==> Count(r.cluster.cells, bundle) == Count(k.cells, bundle) + missing)
    decreases missing
  {
    if missing > 0 && First(outs) != Lost {
      var k' := CreateCell(k, bundle);
      CountAppend(k.cells, [Cell(k.nextId, bundle, false)], b);
      CountAppend(k.cells, [Cell(k.nextId, bundle, false)], bundle);
      if First(outs) == Done { CreateCounts(k', bundle, missing - 1, Rest(outs), b); }
    }
  }

  lemma FillCounts(k: Cluster, info: BundleInfo, outs: seq<Outcome>, b: string)
    ensures var r := FillBundle(k, info, outs);
      && (b != info.name ==> Count(r.cluster.cells, b) == Count(k.cells, b))
      && Count(r.cluster.cells, info.name) >= Count(k.cells, info.name)
      && (Count(k.cells, info.name) <= info.cellCount ==> Count(r.cluster.cells, info.name) <= info.cellCount)
      && (r.ok && Count(k.cells, info.name) <= info.cellCount ==> Count(r.cluster.cells, info.name) == info.cellCount)
      && r.cluster.bundles == k.bundles
  {
    var have := Count(k.cells, info.name);
    var missing := if have < info.cellCount then info.cellCount - have else 0;
    CreateCounts(k, info.name, missing, Rest(outs), b);
    CreateKeepsBundles(k, info.name, missing, Rest(outs));
  }

  lemma {:induction false} CreateKeepsBundles(k: Cluster, bundle: string, missing: nat, outs: seq<Outcome>)
    ensures CreateCells(k, bundle, missing, outs).cluster.bundles == k.bundles
    decreases missing
  {
    if missing > 0 && First(outs) == Done { CreateKeepsBundles(CreateCell(k, bundle), bundle, missing - 1, Rest(outs)); }
  }

  predicate Distinct(infos: seq<BundleInfo>) {
    forall i, j :: 0 <= i < j < |infos| ==> infos[i].name != infos[j].name
  }

  predicate Bounded(k: Cluster, infos: seq<BundleInfo>) {
    forall i :: 0 <= i < |infos| ==> Count(k.cells, infos[i].name) <= infos[i].cellCount
  }

  /** Recovery, however often it fails halfway, never overfills a bundle; when it reports success
      every bundle has exactly its saved count. */
  lemma {:induction false} RecoverCounts(k: Cluster, infos: seq<BundleInfo>, outs: seq<Outcome>)
    requires Distinct(infos) && Bounded(k, infos)
    ensures var r := RecoverCells(k, infos, outs);
      && Bounded(r.cluster, infos)
      && (forall b :: (forall i :: 0 <= i < |infos| ==> infos[i].name != b) ==> Count(r.cluster.cells, b) == Count(k.cells, b))
      && (r.ok ==> forall i :: 0 <= i < |infos| ==> Count(r.cluster.cells, infos[i].name) == infos[i].cellCount)
    decreases |infos|
  {
    if infos != [] {
      var c := FillBundle(k, infos[0], outs);
      var rest := infos[1..];
      forall b ensures b != infos[0].name ==> Count(c.cluster.cells, b) == Count(k.cells, b) {
        FillCounts(k, infos[0], outs, b);
      }
      FillCounts(k, infos[0], outs, infos[0].name);
      assert forall i :: 0 <= i < |rest| ==> rest[i] == infos[i + 1];
      if c.ok {
        RecoverCounts(c.cluster, rest, c.outs);
        var r := RecoverCells(c.cluster, rest, c.outs);
        assert Count(r.cluster.cells, infos[0].name) == Count(c.cluster.cells, infos[0].name);
        forall i | 0 <= i < |infos|
          ensures Count(r.cluster.cells, infos[i].name) <= infos[i].cellCount
          ensures r.ok ==> Count(r.cluster.cells, infos[i].name) == infos[i].cellCount
        {
          if i > 0 { assert rest[i - 1] == infos[i]; }
        }
        forall b | forall i :: 0 <= i < |infos| ==> infos[i].name != b
          ensures Count(r.cluster.cells, b) == Count(k.cells, b)
        {
          assert forall i :: 0 <= i < |rest| ==> rest[i].name != b;
        }
      }
    }
  }
}
