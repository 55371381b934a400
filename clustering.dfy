/** The clustering dialog (src/components/contracts/ContractClustering.tsx):
    contracts grouped by brand and then by series, and the counts it shows
    for a brand and for a series. */
module Clustering {
  import opened Text
  import opened Lists
  import opened Domain

  /** One series of a brand, with its contracts. */
  datatype SeriesCluster = SeriesCluster(seriesInfo: SeriesRow, contracts: seq<ContractRow>)

  /** One brand, with its series keyed by series id. */
  datatype BrandCluster = BrandCluster(brand: BrandRow, series: map<string, SeriesCluster>)

  /** `series.filter(s => s.brand_id === brand.id)`. */
  function BrandSeries(series: seq<SeriesRow>, brandId: string): (r: seq<SeriesRow>)
    ensures IsSublist(r, series)
    ensures forall s :: s in r <==> s in series && s.brandId == Some(brandId)
    ensures forall s :: multiset(r)[s] == if s.brandId == Some(brandId) then multiset(series)[s] else 0
  {
    FilterIsSublist(series, (s: SeriesRow) => s.brandId == Some(brandId));
    FilterCounts(series, (s: SeriesRow) => s.brandId == Some(brandId));
    Filter(series, (s: SeriesRow) => s.brandId == Some(brandId))
  }

  /** `contracts.filter(c => c.series_id === s.id)`. */
  function SeriesContracts(contracts: seq<ContractRow>, seriesId: string): (r: seq<ContractRow>)
    ensures IsSublist(r, contracts)
    ensures forall c :: c in r <==> c in contracts && c.seriesId == Some(seriesId)
    ensures forall c :: multiset(r)[c] == if c.seriesId == Some(seriesId) then multiset(contracts)[c] else 0
  {
    FilterIsSublist(contracts, (c: ContractRow) => c.seriesId == Some(seriesId));
    FilterCounts(contracts, (c: ContractRow) => c.seriesId == Some(seriesId));
    Filter(contracts, (c: ContractRow) => c.seriesId == Some(seriesId))
  }

  /** The series record of one brand after its series have been stored one
      after the other, a later series overwriting an earlier one with the same id. */
  function SeriesMap(brandSeries: seq<SeriesRow>, contracts: seq<ContractRow>): map<string, SeriesCluster>
  {
    if brandSeries == [] then map[]
    else
      var k := |brandSeries| - 1;
      SeriesMap(brandSeries[..k], contracts)[brandSeries[k].id :=
        SeriesCluster(brandSeries[k], SeriesContracts(contracts, brandSeries[k].id))]
  }

  /** The clusters after the brands have been stored one after the other, a
      later brand overwriting an earlier one with the same id. */
  function ClustersOf(brands: seq<BrandRow>, series: seq<SeriesRow>, contracts: seq<ContractRow>): map<string, BrandCluster>
  {
    if brands == [] then map[]
    else
      var k := |brands| - 1;
      var b := brands[k];
      ClustersOf(brands[..k], series, contracts)[b.id := BrandCluster(b, SeriesMap(BrandSeries(series, b.id), contracts))]
  }

  /** `getClusteredData`: the nested `forEach` loops of lines 30-43 filling
      the record in place. */
  method GetClusteredData(brands: seq<BrandRow>, series: seq<SeriesRow>, contracts: seq<ContractRow>)
      returns (clusters: map<string, BrandCluster>)
    ensures clusters == ClustersOf(brands, series, contracts)
  {
    clusters := map[];
    var i := 0;
    while i < |brands|
      invariant 0 <= i <= |brands|
      invariant clusters == ClustersOf(brands[..i], series, contracts)
    {
      var brand := brands[i];
      var before := clusters;
      clusters := clusters[brand.id := BrandCluster(brand, map[])];
      var brandSeries := BrandSeries(series, brand.id);
      var j := 0;
      while j < |brandSeries|
        invariant 0 <= j <= |brandSeries|
        invariant clusters == before[brand.id := BrandCluster(brand, SeriesMap(brandSeries[..j], contracts))]
      {
        var s := brandSeries[j];
        var cluster := clusters[brand.id];
        var updated := cluster.(series := cluster.series[s.id := SeriesCluster(s, SeriesContracts(contracts, s.id))]);
        SeriesMapStep(brandSeries, j, contracts);
        UpdateTwice(before, brand.id, cluster, updated);
        clusters := clusters[brand.id := updated];
        j := j + 1;
      }
      assert brandSeries[..j] == brandSeries;
      ClustersOfStep(brands, i, series, contracts);
      i := i + 1;
    }
    assert brands[..i] == brands;
  }

  /** Updating a key twice keeps the second value. */
  lemma UpdateTwice<K, V>(m: map<K, V>, k: K, a: V, b: V)
    ensures m[k := a][k := b] == m[k := b]
  {
  }

  lemma SeriesMapStep(brandSeries: seq<SeriesRow>, j: nat, contracts: seq<ContractRow>)
    requires j < |brandSeries|
    ensures SeriesMap(brandSeries[..j + 1], contracts) ==
      SeriesMap(brandSeries[..j], contracts)[brandSeries[j].id :=
        SeriesCluster(brandSeries[j], SeriesContracts(contracts, brandSeries[j].id))]
  {
    assert brandSeries[..j + 1][..j] == brandSeries[..j];
  }

  lemma ClustersOfStep(brands: seq<BrandRow>, i: nat, series: seq<SeriesRow>, contracts: seq<ContractRow>)
    requires i < |brands|
    ensures ClustersOf(brands[..i + 1], series, contracts) ==
      ClustersOf(brands[..i], series, contracts)[brands[i].id :=
        BrandCluster(brands[i], SeriesMap(BrandSeries(series, brands[i].id), contracts))]
  {
    assert brands[..i + 1][..i] == brands[..i];
  }

  // ---------------------------------------------------------------------
  // What the clusters hold

  /** The series keys are exactly the ids of the given series. */
  lemma {:induction false} SeriesMapKeys(brandSeries: seq<SeriesRow>, contracts: seq<ContractRow>)
    ensures SeriesMap(brandSeries, contracts).Keys == set i | 0 <= i < |brandSeries| :: brandSeries[i].id
  {
    if brandSeries != [] {
      var k := |brandSeries| - 1;
      var front := brandSeries[..k];
      SeriesMapKeys(front, contracts);
      SeriesIdsSnoc(brandSeries, front);
    }
  }

  /** The ids of a non-empty list: those of its front and the last one. */
  lemma SeriesIdsSnoc(xs: seq<SeriesRow>, front: seq<SeriesRow>)
    requires xs != [] && front == xs[..|xs| - 1]
    ensures (set i | 0 <= i < |xs| :: xs[i].id) ==
      (set i | 0 <= i < |front| :: front[i].id) + {xs[|xs| - 1].id}
  {
    var k := |xs| - 1;
    var ids := set i | 0 <= i < |xs| :: xs[i].id;
    var frontIds := set i | 0 <= i < |front| :: front[i].id;
    forall x | x in ids ensures x in frontIds + {xs[k].id} {
      var i :| 0 <= i < |xs| && xs[i].id == x;
      if i < k {
        assert front[i].id == x;
      }
    }
    forall x | x in frontIds ensures x in ids {
      var i :| 0 <= i < |front| && front[i].id == x;
      assert xs[i].id == x;
    }
  }

  /** Each series entry is a series with that id, taken from the given ones,
      holding exactly the contracts of that series. */
  lemma {:induction false} SeriesMapValue(brandSeries: seq<SeriesRow>, contracts: seq<ContractRow>, key: string)
    requires key in SeriesMap(brandSeries, contracts)
    ensures SeriesMap(brandSeries, contracts)[key].seriesInfo.id == key
    ensures SeriesMap(brandSeries, contracts)[key].seriesInfo in brandSeries
    ensures SeriesMap(brandSeries, contracts)[key].contracts == SeriesContracts(contracts, key)
  {
    var k := |brandSeries| - 1;
    var front := brandSeries[..k];
    var s := brandSeries[k];
    assert SeriesMap(brandSeries, contracts) ==
      SeriesMap(front, contracts)[s.id := SeriesCluster(s, SeriesContracts(contracts, s.id))];
    if key != s.id {
      SeriesMapValue(front, contracts, key);
      var i :| 0 <= i < |front| && front[i] == SeriesMap(front, contracts)[key].seriesInfo;
      assert brandSeries[i] == front[i];
    }
  }

  /** There is one cluster per brand id: the keys are exactly the brand ids. */
  lemma {:induction false} ClusterKeys(brands: seq<BrandRow>, series: seq<SeriesRow>, contracts: seq<ContractRow>)
    ensures ClustersOf(brands, series, contracts).Keys == set i | 0 <= i < |brands| :: brands[i].id
  {
    if brands != [] {
      var k := |brands| - 1;
      var front := brands[..k];
      ClusterKeys(front, series, contracts);
      BrandIdsSnoc(brands, front);
    }
  }

  /** The ids of a non-empty list: those of its front and the last one. */
  lemma BrandIdsSnoc(xs: seq<BrandRow>, front: seq<BrandRow>)
    requires xs != [] && front == xs[..|xs| - 1]
    ensures (set i | 0 <= i < |xs| :: xs[i].id) ==
      (set i | 0 <= i < |front| :: front[i].id) + {xs[|xs| - 1].id}
  {
    var k := |xs| - 1;
    var ids := set i | 0 <= i < |xs| :: xs[i].id;
    var frontIds := set i | 0 <= i < |front| :: front[i].id;
    forall x | x in ids ensures x in frontIds + {xs[k].id} {
      var i :| 0 <= i < |xs| && xs[i].id == x;
      if i < k {
        assert front[i].id == x;
      }
    }
    forall x | x in frontIds ensures x in ids {
      var i :| 0 <= i < |front| && front[i].id == x;
      assert xs[i].id == x;
    }
  }

  /** Each cluster holds a brand with its key as id, and the series record
      built from exactly that brand's series. */
  lemma {:induction false} ClusterValue(brands: seq<BrandRow>, series: seq<SeriesRow>, contracts: seq<ContractRow>, key: string)
    requires key in ClustersOf(brands, series, contracts)
    ensures ClustersOf(brands, series, contracts)[key].brand.id == key
    ensures ClustersOf(brands, series, contracts)[key].brand in brands
    ensures ClustersOf(brands, series, contracts)[key].series == SeriesMap(BrandSeries(series, key), contracts)
  {
    var k := |brands| - 1;
    var front := brands[..k];
    var b := brands[k];
    assert ClustersOf(brands, series, contracts) ==
      ClustersOf(front, series, contracts)[b.id := BrandCluster(b, SeriesMap(BrandSeries(series, b.id), contracts))];
    if key != b.id {
      ClusterValue(front, series, contracts, key);
      var i :| 0 <= i < |front| && front[i] == ClustersOf(front, series, contracts)[key].brand;
      assert brands[i] == front[i];
    }
  }

  /** Of several brands with the same id, the last one listed owns the cluster. */
  lemma {:induction false} LastBrandWins(brands: seq<BrandRow>, series: seq<SeriesRow>, contracts: seq<ContractRow>, i: nat)
    requires i < |brands|
    requires forall j :: i < j < |brands| ==> brands[j].id != brands[i].id
    ensures brands[i].id in ClustersOf(brands, series, contracts)
    ensures ClustersOf(brands, series, contracts)[brands[i].id].brand == brands[i]
  {
    var k := |brands| - 1;
    var front := brands[..k];
    var b := brands[k];
    var rest := ClustersOf(front, series, contracts);
    assert ClustersOf(brands, series, contracts) ==
      rest[b.id := BrandCluster(b, SeriesMap(BrandSeries(series, b.id), contracts))];
    if i < k {
      assert front[i] == brands[i];
      assert forall j :: i < j < |front| ==> front[j] == brands[j];
      LastBrandWins(front, series, contracts, i);
      assert b.id != brands[i].id;
    }
  }

  /** The ids of a brand's series are the ids of the series naming that brand. */
  lemma BrandSeriesIds(series: seq<SeriesRow>, brandId: string)
    ensures var bs := BrandSeries(series, brandId);
      (set i | 0 <= i < |bs| :: bs[i].id) ==
      set j | 0 <= j < |series| && series[j].brandId == Some(brandId) :: series[j].id
  {
    var bs := BrandSeries(series, brandId);
    var lhs := set i | 0 <= i < |bs| :: bs[i].id;
    var rhs := set j | 0 <= j < |series| && series[j].brandId == Some(brandId) :: series[j].id;
    forall x | x in lhs ensures x in rhs {
      var i :| 0 <= i < |bs| && bs[i].id == x;
      assert bs[i] in series;
      var j :| 0 <= j < |series| && series[j] == bs[i];
    }
    forall x | x in rhs ensures x in lhs {
      var j :| 0 <= j < |series| && series[j].brandId == Some(brandId) && series[j].id == x;
      assert series[j] in bs;
      var i :| 0 <= i < |bs| && bs[i] == series[j];
    }
  }

  /** A brand's series are exactly the series whose brand id is that brand's. */
  lemma ClusterSeriesKeys(brands: seq<BrandRow>, series: seq<SeriesRow>, contracts: seq<ContractRow>, brandId: string)
    requires brandId in ClustersOf(brands, series, contracts)
    ensures ClustersOf(brands, series, contracts)[brandId].series.Keys ==
      set j | 0 <= j < |series| && series[j].brandId == Some(brandId) :: series[j].id
  {
    ClusterValue(brands, series, contracts, brandId);
    var bs := BrandSeries(series, brandId);
    assert ClustersOf(brands, series, contracts)[brandId].series == SeriesMap(bs, contracts);
    SeriesMapKeys(bs, contracts);
    BrandSeriesIds(series, brandId);
  }

  /** A series entry is a series of that brand with that id, and holds exactly
      the contracts with that series id, in their original order. */
  lemma ClusterSeriesEntry(brands: seq<BrandRow>, series: seq<SeriesRow>, contracts: seq<ContractRow>,
                           brandId: string, seriesId: string)
    requires brandId in ClustersOf(brands, series, contracts)
    requires seriesId in ClustersOf(brands, series, contracts)[brandId].series
    ensures var entry := ClustersOf(brands, series, contracts)[brandId].series[seriesId];
      && entry.seriesInfo.id == seriesId
      && entry.seriesInfo in series && entry.seriesInfo.brandId == Some(brandId)
      && IsSublist(entry.contracts, contracts)
      && forall c :: c in entry.contracts <==> c in contracts && c.seriesId == Some(seriesId)
  {
    ClusterValue(brands, series, contracts, brandId);
    SeriesMapValue(BrandSeries(series, brandId), contracts, seriesId);
  }

  // ---------------------------------------------------------------------
  // Brand and series counts

  /** The counts of `getBrandStats`; the average margin is not modelled. */
  datatype BrandStats = BrandStats(total: nat, active: nat, expiring: nat)

  /** `getBrandStats(brandId)`: the contracts of the brand, and how many of
      them are active and how many expiring. */
  function BrandStatsOf(contracts: seq<ContractRow>, brandId: string): (r: BrandStats)
    ensures r.total == Count(contracts, (c: ContractRow) => c.brandId == Some(brandId))
    ensures r.active <= r.total && r.expiring <= r.total
    ensures r.active + r.expiring <= r.total
  {
    var brandContracts := Filter(contracts, (c: ContractRow) => c.brandId == Some(brandId));
    CountDisjoint(brandContracts,
      (c: ContractRow) => c.status == Some(Active),
      (c: ContractRow) => c.status == Some(Expiring));
    BrandStats(
      |brandContracts|,
      Count(brandContracts, (c: ContractRow) => c.status == Some(Active)),
      Count(brandContracts, (c: ContractRow) => c.status == Some(Expiring)))
  }

  /** The counts and model list of `getSeriesStats`. */
  datatype SeriesStats = SeriesStats(total: nat, active: nat, models: seq<Option<string>>)

  /** `[...new Set(seriesContracts.map(c => c.model))].filter(Boolean)`. */
  function SeriesModels(seriesContracts: seq<ContractRow>): (r: seq<Option<string>>)
    ensures NoDuplicates(r)
    ensures forall i :: 0 <= i < |r| ==> !Falsy(r[i])
    ensures forall m :: m in r <==> !Falsy(m) && exists i :: 0 <= i < |seriesContracts| && seriesContracts[i].model == m
  {
    var models := Map(seriesContracts, (c: ContractRow) => c.model);
    FilterNoDuplicates(Distinct(models), (m: Option<string>) => !Falsy(m));
    forall m ensures m in Filter(Distinct(models), (m: Option<string>) => !Falsy(m)) <==>
      !Falsy(m) && exists i :: 0 <= i < |seriesContracts| && seriesContracts[i].model == m
    {
      ModelListed(seriesContracts, m);
    }
    Filter(Distinct(models), (m: Option<string>) => !Falsy(m))
  }

  /** A model is listed exactly when it is truthy and some contract has it. */
  lemma ModelListed(seriesContracts: seq<ContractRow>, m: Option<string>)
    ensures var models := Map(seriesContracts, (c: ContractRow) => c.model);
      m in Filter(Distinct(models), (m: Option<string>) => !Falsy(m)) <==>
      !Falsy(m) && exists i :: 0 <= i < |seriesContracts| && seriesContracts[i].model == m
  {
    var models := Map(seriesContracts, (c: ContractRow) => c.model);
    if !Falsy(m) && exists i :: 0 <= i < |seriesContracts| && seriesContracts[i].model == m {
      var i :| 0 <= i < |seriesContracts| && seriesContracts[i].model == m;
      assert models[i] == m;
      assert m in Distinct(models);
    }
    if m in Filter(Distinct(models), (m: Option<string>) => !Falsy(m)) {
      assert m in Distinct(models);
      var i :| 0 <= i < |models| && models[i] == m;
      assert seriesContracts[i].model == m;
    }
  }

  /** `getSeriesStats(seriesId)`. */
  function SeriesStatsOf(contracts: seq<ContractRow>, seriesId: string): (r: SeriesStats)
    ensures r.total == |SeriesContracts(contracts, seriesId)|
    ensures r.active <= r.total
    ensures r.models == SeriesModels(SeriesContracts(contracts, seriesId))
  {
    var seriesContracts := SeriesContracts(contracts, seriesId);
    SeriesStats(
      |seriesContracts|,
      Count(seriesContracts, (c: ContractRow) => c.status == Some(Active)),
      SeriesModels(seriesContracts))
  }

  /** Models are listed in the order they first occur: the models of the
      first contracts are a prefix of the models of all of them. */
  lemma ModelsInFirstOccurrenceOrder(seriesContracts: seq<ContractRow>, k: nat)
    requires k <= |seriesContracts|
    ensures IsPrefix(SeriesModels(seriesContracts[..k]), SeriesModels(seriesContracts))
  {
    var f := (c: ContractRow) => c.model;
    var all := Map(seriesContracts, f);
    MapPrefix(seriesContracts, k, f);
    DistinctPrefix(all, k);
    assert Map(seriesContracts[..k], f) == all[..k];
    FilterKeepsPrefix(Distinct(all[..k]), Distinct(all), (m: Option<string>) => !Falsy(m));
  }
}
