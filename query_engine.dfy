// The imperative side of main/index.cpp: building the lookup maps, the
// worker `calculateRevenue`, the shared result map behind the mutex, running
// the workers, and ranking the result. Each method is proved against the
// functions of RevenueSpec.

module QueryEngine {
  import opened Wrappers
  import opened SchemaTypes
  import opened DataLoader
  import opened CliConfigParser
  import opened RevenueSpec

  /** Lines 113-137: one pass per table, `m[key] = value`, and push_back for the line items. */
  method BuildIndices(regions: seq<GeoZone>, nations: seq<NationInfo>, clients: seq<ClientInfo>,
                      vendors: seq<VendorData>, items: seq<ItemDetail>) returns (ix: Indices)
    ensures ix == IndicesOf(regions, nations, clients, vendors, items)
  {
    var regionLabels: map<int, string> := map[];
    for i := 0 to |regions|
      invariant regionLabels == RegionLabelsOf(regions[..i])
    {
      assert regions[..i + 1][..i] == regions[..i];
      regionLabels := regionLabels[regions[i].key := regions[i].zoneLabel];
    }

    var nationLabels: map<int, string> := map[];
    var nationRegions: map<int, int> := map[];
    for i := 0 to |nations|
      invariant nationLabels == NationLabelsOf(nations[..i])
      invariant nationRegions == NationRegionsOf(nations[..i])
    {
      assert nations[..i + 1][..i] == nations[..i];
      nationLabels := nationLabels[nations[i].id := nations[i].name];
      nationRegions := nationRegions[nations[i].id := nations[i].regionId];
    }

    var clientMap: map<int, int> := map[];
    for i := 0 to |clients|
      invariant clientMap == ClientMapOf(clients[..i])
    {
      assert clients[..i + 1][..i] == clients[..i];
      clientMap := clientMap[clients[i].id := clients[i].nationality];
    }

    var vendorMap: map<int, int> := map[];
    for i := 0 to |vendors|
      invariant vendorMap == VendorMapOf(vendors[..i])
    {
      assert vendors[..i + 1][..i] == vendors[..i];
      vendorMap := vendorMap[vendors[i].id := vendors[i].nation];
    }

    var itemMap: map<int, seq<ItemDetail>> := map[];
    for i := 0 to |items|
      invariant itemMap == ItemsByOrder(items[..i])
    {
      assert items[..i + 1][..i] == items[..i];
      var orderId := items[i].orderId;
      var list := if orderId in itemMap then itemMap[orderId] else [];
      itemMap := itemMap[orderId := list + [items[i]]];
    }

    assert regions[..|regions|] == regions;
    assert nations[..|nations|] == nations;
    assert clients[..|clients|] == clients;
    assert vendors[..|vendors|] == vendors;
    assert items[..|items|] == items;
    ix := Indices(regionLabels, nationLabels, nationRegions, clientMap, vendorMap, itemMap);
  }

  /** The result map shared by the workers (`revenue` in main, `finalMap` in the worker). */
  class RevenueMap {
    var totals: map<string, real>

    constructor()
      ensures totals == map[]
    {
      totals := map[];
    }

    /** Lines 86-88: `finalMap[nation] += val` for every entry of a worker's map, in any order. */
    method MergeFrom(local: map<string, real>)
      modifies this
      ensures totals == Merged(old(totals), local)
    {
      var pending := local.Keys;
      while pending != {}
        invariant pending <= local.Keys
        invariant totals.Keys == old(totals).Keys + (local.Keys - pending)
        invariant forall k :: k in totals ==>
          totals[k] == Get(old(totals), k) + (if k in local && k !in pending then local[k] else 0.0)
        decreases pending
      {
        var nation :| nation in pending;
        totals := totals[nation := (if nation in totals then totals[nation] else 0.0) + local[nation]];
        pending := pending - {nation};
      }
      ghost var expected := Merged(old(totals), local);
      assert forall k :: k in totals ==> totals[k] == expected[k];
    }
  }

  /** One more order: its contributions are added to the worker's map. */
  lemma RevenueStep(ix: Indices, q: Query, orders: seq<PurchaseOrder>, begin: nat, i: nat)
    requires begin <= i < |orders|
    ensures Revenue(ix, q, orders[begin..i + 1]) ==
            Accumulate(Revenue(ix, q, orders[begin..i]), OrderContributions(ix, q, orders[i]))
  {
    assert orders[begin..i + 1] == orders[begin..i] + [orders[i]];
    RangeContributionsAppend(ix, q, orders[begin..i], [orders[i]]);
    assert [orders[i]][..0] == [];
    AccumulateAppend(map[], RangeContributions(ix, q, orders[begin..i]), OrderContributions(ix, q, orders[i]));
  }

  lemma ItemContributionsStep(ix: Indices, nationId: int, items: seq<ItemDetail>, j: nat)
    requires j < |items|
    ensures ItemContributions(ix, nationId, items[..j + 1]) ==
            ItemContributions(ix, nationId, items[..j]) +
            (if VendorIsLocal(ix, nationId, items[j]) && nationId in ix.nationLabels
             then [Contribution(ix.nationLabels[nationId], Amount(items[j]))]
             else [])
  {
    var upto := items[..j + 1];
    assert upto[..|upto| - 1] == items[..j];
    assert upto[|upto| - 1] == items[j];
  }

  /** A line item that fails the local-trade test or has no nation name adds nothing. */
  lemma ItemSkipped(ix: Indices, nationId: int, m: map<string, real>, items: seq<ItemDetail>, j: nat,
                    updated: map<string, real>)
    requires j < |items|
    requires !(VendorIsLocal(ix, nationId, items[j]) && nationId in ix.nationLabels)
    requires updated == Accumulate(m, ItemContributions(ix, nationId, items[..j]))
    ensures updated == Accumulate(m, ItemContributions(ix, nationId, items[..j + 1]))
  {
    ItemContributionsStep(ix, nationId, items, j);
    assert ItemContributions(ix, nationId, items[..j]) + [] == ItemContributions(ix, nationId, items[..j]);
  }

  /** A line item that passes adds its amount under the nation's name. */
  lemma ItemAdded(ix: Indices, nationId: int, m: map<string, real>, items: seq<ItemDetail>, j: nat,
                  updated: map<string, real>, name: string, amount: real)
    requires j < |items|
    requires VendorIsLocal(ix, nationId, items[j]) && nationId in ix.nationLabels
    requires updated == Accumulate(m, ItemContributions(ix, nationId, items[..j]))
    requires name == ix.nationLabels[nationId] && amount == items[j].price * (1.0 - items[j].markdown)
    ensures updated[name := (if name in updated then updated[name] else 0.0) + amount] ==
            Accumulate(m, ItemContributions(ix, nationId, items[..j + 1]))
  {
    ItemContributionsStep(ix, nationId, items, j);
    var c := Contribution(name, amount);
    assert Amount(items[j]) == amount;
    assert ItemContributions(ix, nationId, items[..j + 1]) == ItemContributions(ix, nationId, items[..j]) + [c];
    AccumulateLast(m, ItemContributions(ix, nationId, items[..j]), c);
    assert Get(updated, name) == (if name in updated then updated[name] else 0.0);
  }

  /**
    * Lines 64-81: for each line item of a qualifying order whose vendor is
    * known and sits in the client's nation, `localSum[name] += price * (1 - markdown)`.
    */
  method AddLineItems(ix: Indices, nationId: int, lineItems: seq<ItemDetail>, localSum: map<string, real>)
    returns (updated: map<string, real>)
    ensures updated == Accumulate(localSum, ItemContributions(ix, nationId, lineItems))
  {
    updated := localSum;
    for j := 0 to |lineItems|
      invariant updated == Accumulate(localSum, ItemContributions(ix, nationId, lineItems[..j]))
    {
      var item := lineItems[j];
      if item.vendorId !in ix.vendorMap {
        ItemSkipped(ix, nationId, localSum, lineItems, j, updated);
        continue;
      }
      if ix.vendorMap[item.vendorId] != nationId {
        ItemSkipped(ix, nationId, localSum, lineItems, j, updated);
        continue;
      }
      if nationId !in ix.nationLabels {
        ItemSkipped(ix, nationId, localSum, lineItems, j, updated);
        continue;
      }
      var amount := item.price * (1.0 - item.markdown);
      var name := ix.nationLabels[nationId];
      ItemAdded(ix, nationId, localSum, lineItems, j, updated, name, amount);
      updated := updated[name := (if name in updated then updated[name] else 0.0) + amount];
    }
    assert lineItems[..|lineItems|] == lineItems;
  }

  /**
    * Lines 30-82: the worker's local map, built from an empty one over the
    * orders in [begin, end): each order is dropped unless its date is in the
    * window, its client's nation is in the target region and it has line items.
    */
  method SumOrders(orders: seq<PurchaseOrder>, ix: Indices, q: Query, begin: nat, end: nat)
    returns (localSum: map<string, real>)
    requires begin <= end <= |orders|
    ensures localSum == Revenue(ix, q, orders[begin..end])
  {
    localSum := map[];
    for i := begin to end
      invariant localSum == Revenue(ix, q, orders[begin..i])
    {
      var order := orders[i];
      RevenueStep(ix, q, orders, begin, i);
      if LexLess(order.orderDate, q.beginDate) || !LexLess(order.orderDate, q.finishDate) {
        continue;
      }
      if order.clientId !in ix.clientMap {
        continue;
      }
      var nationId := ix.clientMap[order.clientId];
      if nationId !in ix.nationRegions {
        continue;
      }
      if ix.nationRegions[nationId] !in ix.regionLabels {
        continue;
      }
      if ix.regionLabels[ix.nationRegions[nationId]] != q.targetRegion {
        continue;
      }
      if order.id !in ix.itemMap {
        continue;
      }
      localSum := AddLineItems(ix, nationId, ix.itemMap[order.id], localSum);
    }
  }

  /**
    * calculateRevenue (lines 17-89): the worker sums its range of orders in a
    * local map, then merges that map into the shared one under the mutex.
    */
  method CalculateRevenue(orders: seq<PurchaseOrder>, ix: Indices, q: Query,
                          finalMap: RevenueMap, begin: nat, end: nat)
    requires begin <= end <= |orders|
    modifies finalMap
    ensures finalMap.totals == Merged(old(finalMap.totals), Revenue(ix, q, orders[begin..end]))
  {
    var localSum := SumOrders(orders, ix, q, begin, end);
    finalMap.MergeFrom(localSum);
  }

  /**
    * Lines 142-173: split the orders among threadCount workers and let each
    * merge into the shared map. The workers only read shared data until they
    * take the mutex, so running them one after another in the order the
    * mutex admits them, `schedule`, gives what the threads give.
    */
  method RunWorkers(orders: seq<PurchaseOrder>, ix: Indices, q: Query, threadCount: int, schedule: seq<int>)
    returns (revenue: map<string, real>)
    requires 1 <= threadCount && IsSchedule(schedule, threadCount)
    ensures revenue == Revenue(ix, q, orders)
  {
    var shared := new RevenueMap();
    var split := |orders| / threadCount;
    AllAdmitted(ix, q, orders, threadCount, schedule);
    for k := 0 to |schedule|
      invariant shared.totals == Admitted(ix, q, orders, threadCount, schedule, k)
    {
      var i := schedule[k];
      var start := i * split;
      var stop := if i == threadCount - 1 then |orders| else (i + 1) * split;
      ScheduleStep(ix, q, orders, threadCount, schedule, k, split, start, stop);
      CalculateRevenue(orders, ix, q, shared, start, stop);
    }
    revenue := shared.totals;
  }

  /** The shared map once the first k workers the mutex admits have merged their maps. */
  ghost function Admitted(ix: Indices, q: Query, orders: seq<PurchaseOrder>, t: int, schedule: seq<int>, k: nat): map<string, real>
    requires 1 <= t && Within(schedule, t) && k <= |schedule|
  {
    WithinPrefix(schedule, t, k);
    MergeAll(map[], Select(PartitionLocals(ix, q, orders, t), schedule[..k]))
  }

  lemma WithinPrefix(schedule: seq<int>, t: nat, k: nat)
    requires Within(schedule, t) && k <= |schedule|
    ensures Within(schedule[..k], t)
  {
    forall j | 0 <= j < k
      ensures 0 <= schedule[..k][j] < t
    {
      assert schedule[..k][j] == schedule[j];
    }
  }

  /** Once every worker has been admitted, the shared map holds the single-pass revenue. */
  lemma AllAdmitted(ix: Indices, q: Query, orders: seq<PurchaseOrder>, t: int, schedule: seq<int>)
    requires 1 <= t && IsSchedule(schedule, t)
    ensures Within(schedule, t)
    ensures Admitted(ix, q, orders, t, schedule, |schedule|) == Revenue(ix, q, orders)
  {
    LockOrderIrrelevant(ix, q, orders, t, schedule);
    assert schedule[..|schedule|] == schedule;
  }

  /** The worker the mutex admits k-th merges the map of its range [start, stop) after those admitted before it. */
  lemma ScheduleStep(ix: Indices, q: Query, orders: seq<PurchaseOrder>, t: int, schedule: seq<int>, k: nat,
                     split: int, start: int, stop: int)
    requires 1 <= t && Within(schedule, t) && k < |schedule|
    requires split == |orders| / t && start == schedule[k] * split
    requires stop == if schedule[k] == t - 1 then |orders| else (schedule[k] + 1) * split
    ensures 0 <= start <= stop <= |orders|
    ensures Admitted(ix, q, orders, t, schedule, k + 1) ==
            Merged(Admitted(ix, q, orders, t, schedule, k), Revenue(ix, q, orders[start..stop]))
  {
    var locals := PartitionLocals(ix, q, orders, t);
    var i := schedule[k];
    var r := PartitionRange(|orders|, t, i);
    assert r == Range(start, stop);
    assert locals[i] == Revenue(ix, q, orders[start..stop]);
    WithinPrefix(schedule, t, k);
    assert schedule[..k + 1] == schedule[..k] + [i];
    assert Within([i], t);
    SelectAppend(locals, schedule[..k], [i]);
    var picked := Select(locals, schedule[..k + 1]);
    assert picked[..k] == Select(locals, schedule[..k]);
  }

  /** Lines 183-184: the result map's entries, sorted by descending revenue. */
  method RankByRevenue(revenue: map<string, real>) returns (output: seq<(string, real)>)
    ensures RankedBy(output, revenue)
  {
    var entries: seq<(string, real)> := [];
    var pending := revenue.Items;
    while pending != {}
      invariant pending <= revenue.Items
      invariant multiset(entries) + multiset(pending) == multiset(revenue.Items)
      decreases pending
    {
      var entry :| entry in pending;
      assert multiset(pending) == multiset(pending - {entry}) + multiset{entry};
      entries := entries + [entry];
      pending := pending - {entry};
    }
    output := [];
    for k := 0 to |entries|
      invariant SortedByRevenue(output)
      invariant multiset(output) == multiset(entries[..k])
    {
      assert entries[..k + 1] == entries[..k] + [entries[k]];
      InsertKeepsSorted(output, entries[k]);
      InsertAddsEntry(output, entries[k]);
      output := InsertByRevenue(output, entries[k]);
    }
    assert entries[..|entries|] == entries;
  }

  // ---------------------------------------------------------------------------
  // main (lines 93-195), without the files, the clock and the log

  /** The lines of the six .tbl files in the data folder, as std::getline yields them. */
  datatype TableLines = TableLines(
    region: seq<string>,
    nation: seq<string>,
    customer: seq<string>,
    orders: seq<string>,
    lineitem: seq<string>,
    supplier: seq<string>)

  /** The records a loader returns for the given lines: one per line. */
  function Parsed<T>(lines: seq<string>, parse: string -> T): seq<T> {
    seq(|lines|, i requires 0 <= i < |lines| => parse(lines[i]))
  }

  /** The revenue map a run with these options over these files holds once every worker has merged. */
  function ExpectedRevenue(opts: ConfigOptions, files: TableLines): map<string, real> {
    var ix := IndicesOf(Parsed(files.region, ParseRegion), Parsed(files.nation, ParseNation),
                        Parsed(files.customer, ParseClient), Parsed(files.supplier, ParseVendor),
                        Parsed(files.lineitem, ParseLineItem));
    Revenue(ix, Query(opts.region, opts.fromDate, opts.toDate), Parsed(files.orders, ParseOrder))
  }

  /**
    * The whole run: parse the arguments (rejecting a thread count below one),
    * load the tables, build the lookup maps, run the workers in the order they
    * are started, and rank the result.
    */
  method Query5(argv: seq<string>, files: TableLines) returns (result: Result<seq<(string, real)>, CliError>)
    requires |argv| == 7 ==> |argv[5]| > 0
    ensures ParseArgumentsChecked(argv).Failure? ==> result == Failure(ParseArgumentsChecked(argv).error)
    ensures ParseArgumentsChecked(argv).Success? ==>
      result.Success? && RankedBy(result.value, ExpectedRevenue(ParseArgumentsChecked(argv).value, files))
  {
    var parsed := ParseArgumentsChecked(argv);
    if parsed.Failure? {
      return Failure(parsed.error);
    }
    var opts := parsed.value;
    var regions := LoadRegions(files.region);
    var nations := LoadNations(files.nation);
    var clients := LoadClients(files.customer);
    var orders := LoadOrders(files.orders);
    var items := LoadLineItems(files.lineitem);
    var vendors := LoadVendors(files.supplier);
    assert regions == Parsed(files.region, ParseRegion);
    assert nations == Parsed(files.nation, ParseNation);
    assert clients == Parsed(files.customer, ParseClient);
    assert orders == Parsed(files.orders, ParseOrder);
    assert items == Parsed(files.lineitem, ParseLineItem);
    assert vendors == Parsed(files.supplier, ParseVendor);

    var ix := BuildIndices(regions, nations, clients, vendors, items);
    var q := Query(opts.region, opts.fromDate, opts.toDate);
    var revenue := RunWorkers(orders, ix, q, opts.threadCount, Workers(opts.threadCount));
    var output := RankByRevenue(revenue);
    return Success(output);
  }
}
