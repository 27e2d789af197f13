// main/data_loader.cpp: the conversions with sentinel values, and the six
// table loaders. A table file is given as the sequence of its lines (what the
// `while (std::getline(file, line))` loop reads); each line is taken apart by
// the `std::getline(ss, x, '|')` calls on a std::stringstream, modelled here
// exactly, including what happens once the stream runs out of text.
module DataLoader {
  import opened Wrappers
  import opened SchemaTypes
  import opened StdConversions

  /** safeStoi: the value std::stoi reads, or -1 when it throws. */
  function SafeStoi(s: string): (r: int)
    ensures IntMin <= r <= IntMax
    ensures Stoi(s).Some? ==> r == Stoi(s).value
    ensures Stoi(s).None? ==> r == -1
  {
    Stoi(s).GetOr(-1)
  }

  /** safeStod: the value std::stod reads, or -1.0 when it throws. */
  function SafeStod(s: string): (r: real)
    ensures Stod(s).Some? ==> r == Stod(s).value
    ensures Stod(s).None? ==> r == -1.0
  {
    Stod(s).GetOr(-1.0)
  }

  // ---------------------------------------------------------------------------
  // Fields of a line

  predicate NoPipe(field: string) {
    '|' !in field
  }

  predicate NoPipes(fields: seq<string>) {
    forall i :: 0 <= i < |fields| ==> NoPipe(fields[i])
  }

  /** The position of the first `|` of `s`, or |s| when there is none. */
  function PipeIndex(s: string): (k: nat)
    ensures k <= |s| && NoPipe(s[..k])
    ensures forall j :: 0 <= j < k ==> s[j] != '|'
    ensures k < |s| ==> s[k] == '|'
  {
    if s == [] || s[0] == '|' then 0
    else
      var k := PipeIndex(s[1..]) + 1;
      assert s[..k] == [s[0]] + s[1..][..k - 1];
      k
  }

  /** The fields of a line joined back with `|` between them. */
  function Join(fields: seq<string>): (line: string)
    requires |fields| >= 1
  {
    if |fields| == 1 then fields[0] else fields[0] + "|" + Join(fields[1..])
  }

  /** The fields of a line, cut at every `|`; a line has one field more than it has `|`s. */
  function Split(line: string): (fields: seq<string>)
    ensures |fields| >= 1 && NoPipes(fields)
    ensures Join(fields) == line
    decreases |line|
  {
    var k := PipeIndex(line);
    if k == |line| then
      assert line[..k] == line;
      [line]
    else
      var rest := Split(line[k + 1..]);
      var fields := [line[..k]] + rest;
      assert fields[0] == line[..k] && fields[1..] == rest;
      assert forall i :: 0 < i < |fields| ==> fields[i] == rest[i - 1];
      assert line == line[..k] + "|" + line[k + 1..];
      fields
  }

  /** Splitting undoes joining, as long as no field holds a `|`. */
  lemma {:induction false} SplitJoin(fields: seq<string>)
    requires |fields| >= 1 && NoPipes(fields)
    ensures Split(Join(fields)) == fields
  {
    var line := Join(fields);
    if |fields| == 1 {
      assert PipeIndex(line) == |line|;
    } else {
      var rest := Join(fields[1..]);
      assert line == fields[0] + "|" + rest;
      assert PipeIndex(line) == |fields[0]| by {
        assert line[..|fields[0]|] == fields[0];
        PipeIndexOfField(fields[0], rest);
      }
      assert line[..|fields[0]|] == fields[0];
      assert line[|fields[0]| + 1..] == rest;
      SplitJoin(fields[1..]);
    }
  }

  lemma PipeIndexOfField(field: string, rest: string)
    requires NoPipe(field)
    ensures PipeIndex(field + "|" + rest) == |field|
  {
    var s := field + "|" + rest;
    var k := PipeIndex(s);
    assert forall j :: 0 <= j < |field| ==> s[j] == field[j];
    assert s[|field|] == '|';
  }

  // ---------------------------------------------------------------------------
  // std::getline on a std::stringstream

  /** A std::stringstream over one line: the text not read yet, and whether the stream is still good. */
  datatype LineStream = LineStream(rest: string, good: bool)

  /** What one std::getline call leaves behind: the stream and the target string. */
  datatype Extraction = Extraction(stream: LineStream, text: string)

  /**
    * std::getline(ss, target, '|'). On a stream that is no longer good the
    * sentry fails and `target` is left as it was. Otherwise `target` is
    * cleared and filled up to the next `|`, which is consumed; reaching the
    * end of the text sets eofbit, and extracting nothing at all sets failbit.
    */
  function Getline(st: LineStream, target: string): (r: Extraction)
  {
    if !st.good then Extraction(st, target)
    else
      var k := PipeIndex(st.rest);
      if k < |st.rest| then Extraction(LineStream(st.rest[k + 1..], true), st.rest[..k])
      else Extraction(LineStream([], false), st.rest)
  }

  /** The next std::getline into the same string as the previous one. */
  function Next(e: Extraction): Extraction {
    Getline(e.stream, e.text)
  }

  /** The stream positioned at field `i` of a line split into `fields`. */
  function FieldStream(fields: seq<string>, i: nat): LineStream
    requires i < |fields|
  {
    LineStream(Join(fields[i..]), true)
  }

  /** The i-th std::getline of a line yields its i-th field, whatever the target held. */
  lemma GetlineReadsField(fields: seq<string>, i: nat, target: string)
    requires i < |fields| && NoPipes(fields)
    ensures Getline(FieldStream(fields, i), target).text == fields[i]
    ensures i + 1 < |fields| ==> Getline(FieldStream(fields, i), target).stream == FieldStream(fields, i + 1)
    ensures i + 1 == |fields| ==> !Getline(FieldStream(fields, i), target).stream.good
  {
    var line := Join(fields[i..]);
    if i + 1 < |fields| {
      assert fields[i..][1..] == fields[i + 1..];
      PipeIndexOfField(fields[i], Join(fields[i + 1..]));
      assert line[..|fields[i]|] == fields[i];
      assert line[|fields[i]| + 1..] == Join(fields[i + 1..]);
    } else {
      assert fields[i..] == [fields[i]];
      assert line[..|line|] == line;
    }
  }

  /** A line is read from its start, which is field 0 of its split. */
  lemma LineStreamIsFieldStream(line: string)
    ensures LineStream(line, true) == FieldStream(Split(line), 0)
  {
    assert Split(line)[0..] == Split(line);
  }

  // ---------------------------------------------------------------------------
  // One record per line, field by field as the loaders read them

  /** loadRegions: key from field 0, the name from field 1 into `gz.label`. */
  function ParseRegion(line: string): GeoZone {
    var key := Getline(LineStream(line, true), "");
    var name := Getline(key.stream, "");
    GeoZone(SafeStoi(key.text), name.text)
  }

  /** loadNations: id, name into `n.name`, then the region id back into `data`. */
  function ParseNation(line: string): NationInfo {
    var id := Getline(LineStream(line, true), "");
    var name := Getline(id.stream, "");
    var region := Getline(name.stream, id.text);
    NationInfo(SafeStoi(id.text), name.text, SafeStoi(region.text))
  }

  /** loadClients: id, skip name and address, nation id; all into `data`. */
  function ParseClient(line: string): ClientInfo {
    var id := Getline(LineStream(line, true), "");
    var nation := Next(Next(Next(id)));
    ClientInfo(SafeStoi(id.text), SafeStoi(nation.text))
  }

  /** loadOrders: id, client id, skip status and total price, then the date into `o.orderDate`. */
  function ParseOrder(line: string): PurchaseOrder {
    var id := Getline(LineStream(line, true), "");
    var client := Next(id);
    var totalPrice := Next(Next(client));
    var date := Getline(totalPrice.stream, "");
    PurchaseOrder(SafeStoi(id.text), SafeStoi(client.text), date.text)
  }

  /** loadLineItems: order id, vendor id, skip part, line number and quantity, price, discount. */
  function ParseLineItem(line: string): ItemDetail {
    var order := Getline(LineStream(line, true), "");
    var vendor := Next(order);
    var price := Next(Next(Next(Next(vendor))));
    var markdown := Next(price);
    ItemDetail(SafeStoi(order.text), SafeStoi(vendor.text), SafeStod(price.text), SafeStod(markdown.text))
  }

  /** loadVendors: id, skip name and address, nation id, skip phone, balance. */
  function ParseVendor(line: string): VendorData {
    var id := Getline(LineStream(line, true), "");
    var nation := Next(Next(Next(id)));
    var balance := Next(Next(nation));
    VendorData(SafeStoi(id.text), SafeStoi(nation.text), SafeStod(balance.text))
  }

  // ---------------------------------------------------------------------------
  // What each record takes from its line

  lemma RegionTakesFields(line: string)
    requires |Split(line)| >= 2
    ensures var f := Split(line); ParseRegion(line) == GeoZone(SafeStoi(f[0]), f[1])
  {
    var f := Split(line);
    LineStreamIsFieldStream(line);
    GetlineReadsField(f, 0, "");
    GetlineReadsField(f, 1, "");
  }

  lemma NationTakesFields(line: string)
    requires |Split(line)| >= 3
    ensures var f := Split(line); ParseNation(line) == NationInfo(SafeStoi(f[0]), f[1], SafeStoi(f[2]))
  {
    var f := Split(line);
    LineStreamIsFieldStream(line);
    GetlineReadsField(f, 0, "");
    GetlineReadsField(f, 1, "");
    GetlineReadsField(f, 2, f[0]);
  }

  lemma ClientTakesFields(line: string)
    requires |Split(line)| >= 4
    ensures var f := Split(line); ParseClient(line) == ClientInfo(SafeStoi(f[0]), SafeStoi(f[3]))
  {
    var f := Split(line);
    LineStreamIsFieldStream(line);
    GetlineReadsField(f, 0, "");
    GetlineReadsField(f, 1, f[0]);
    GetlineReadsField(f, 2, f[1]);
    GetlineReadsField(f, 3, f[2]);
  }

  lemma OrderTakesFields(line: string)
    requires |Split(line)| >= 5
    ensures var f := Split(line); ParseOrder(line) == PurchaseOrder(SafeStoi(f[0]), SafeStoi(f[1]), f[4])
  {
    var f := Split(line);
    LineStreamIsFieldStream(line);
    GetlineReadsField(f, 0, "");
    GetlineReadsField(f, 1, f[0]);
    GetlineReadsField(f, 2, f[1]);
    GetlineReadsField(f, 3, f[2]);
    GetlineReadsField(f, 4, "");
  }

  lemma LineItemTakesFields(line: string)
    requires |Split(line)| >= 7
    ensures var f := Split(line);
      ParseLineItem(line) == ItemDetail(SafeStoi(f[0]), SafeStoi(f[1]), SafeStod(f[5]), SafeStod(f[6]))
  {
    var f := Split(line);
    LineStreamIsFieldStream(line);
    GetlineReadsField(f, 0, "");
    GetlineReadsField(f, 1, f[0]);
    GetlineReadsField(f, 2, f[1]);
    GetlineReadsField(f, 3, f[2]);
    GetlineReadsField(f, 4, f[3]);
    GetlineReadsField(f, 5, f[4]);
    GetlineReadsField(f, 6, f[5]);
  }

  lemma VendorTakesFields(line: string)
    requires |Split(line)| >= 6
    ensures var f := Split(line); ParseVendor(line) == VendorData(SafeStoi(f[0]), SafeStoi(f[3]), SafeStod(f[5]))
  {
    var f := Split(line);
    LineStreamIsFieldStream(line);
    GetlineReadsField(f, 0, "");
    GetlineReadsField(f, 1, f[0]);
    GetlineReadsField(f, 2, f[1]);
    GetlineReadsField(f, 3, f[2]);
    GetlineReadsField(f, 4, f[3]);
    GetlineReadsField(f, 5, f[4]);
  }

  /** A blank line still yields a record: every number is the sentinel and every text is empty. */
  lemma BlankLineGivesSentinels()
    ensures ParseRegion("") == GeoZone(-1, "")
    ensures ParseNation("") == NationInfo(-1, "", -1)
    ensures ParseClient("") == ClientInfo(-1, -1)
    ensures ParseOrder("") == PurchaseOrder(-1, -1, "")
    ensures ParseLineItem("") == ItemDetail(-1, -1, -1.0, -1.0)
    ensures ParseVendor("") == VendorData(-1, -1, -1.0)
  {
    assert Stoi("") == None;
    assert Stod("") == None;
  }

  /**
    * On a line that ends before the fields a loader asks for, the failed
    * std::getline calls leave `data` holding the last field that was read:
    * a nation line with only an id and a name gets its id as region id.
    */
  lemma ShortNationLineReusesId(line: string)
    requires |Split(line)| == 2
    ensures ParseNation(line).regionId == ParseNation(line).id
  {
    var f := Split(line);
    LineStreamIsFieldStream(line);
    GetlineReadsField(f, 0, "");
    GetlineReadsField(f, 1, "");
  }

  /** Likewise a line item line with two fields gets its vendor id text as price and as discount. */
  lemma ShortLineItemLineReusesVendor(line: string)
    requires |Split(line)| == 2
    ensures ParseLineItem(line).price == SafeStod(Split(line)[1])
    ensures ParseLineItem(line).markdown == SafeStod(Split(line)[1])
  {
    var f := Split(line);
    LineStreamIsFieldStream(line);
    GetlineReadsField(f, 0, "");
    GetlineReadsField(f, 1, f[0]);
  }

  // ---------------------------------------------------------------------------
  // The loaders: one record per line, in file order

  /**
    * The `while (std::getline(file, line))` loop every loader runs: one record
    * is pushed per line read, blank lines included, in file order.
    */
  method LoadRecords<T>(lines: seq<string>, parse: string -> T) returns (records: seq<T>)
    ensures |records| == |lines|
    ensures forall i :: 0 <= i < |lines| ==> records[i] == parse(lines[i])
  {
    records := [];
    for n := 0 to |lines|
      invariant |records| == n
      invariant forall i :: 0 <= i < n ==> records[i] == parse(lines[i])
    {
      records := records + [parse(lines[n])];
    }
  }

  method LoadRegions(lines: seq<string>) returns (regions: seq<GeoZone>)
    ensures |regions| == |lines|
    ensures forall i :: 0 <= i < |lines| ==> regions[i] == ParseRegion(lines[i])
  {
    regions := LoadRecords(lines, ParseRegion);
  }

  method LoadNations(lines: seq<string>) returns (nations: seq<NationInfo>)
    ensures |nations| == |lines|
    ensures forall i :: 0 <= i < |lines| ==> nations[i] == ParseNation(lines[i])
  {
    nations := LoadRecords(lines, ParseNation);
  }

  method LoadClients(lines: seq<string>) returns (clients: seq<ClientInfo>)
    ensures |clients| == |lines|
    ensures forall i :: 0 <= i < |lines| ==> clients[i] == ParseClient(lines[i])
  {
    clients := LoadRecords(lines, ParseClient);
  }

  method LoadOrders(lines: seq<string>) returns (orders: seq<PurchaseOrder>)
    ensures |orders| == |lines|
    ensures forall i :: 0 <= i < |lines| ==> orders[i] == ParseOrder(lines[i])
  {
    orders := LoadRecords(lines, ParseOrder);
  }

  method LoadLineItems(lines: seq<string>) returns (items: seq<ItemDetail>)
    ensures |items| == |lines|
    ensures forall i :: 0 <= i < |lines| ==> items[i] == ParseLineItem(lines[i])
  {
    items := LoadRecords(lines, ParseLineItem);
  }

  method LoadVendors(lines: seq<string>) returns (vendors: seq<VendorData>)
    ensures |vendors| == |lines|
    ensures forall i :: 0 <= i < |lines| ==> vendors[i] == ParseVendor(lines[i])
  {
    vendors := LoadRecords(lines, ParseVendor);
  }

  // ---------------------------------------------------------------------------
  // The sentinels

  /** A genuine -1 cannot be told apart from a field that failed to convert. */
  lemma SentinelIsAmbiguous()
    ensures SafeStoi("-1") == SafeStoi("") == -1
    ensures SafeStod("-1") == SafeStod("") == -1.0
  {
    StoiReadsIntToString(-1, "");
    StodReadsIntToString(-1, "");
    assert IntToString(-1) + "" == "-1";
  }

  /** Any `int` written in decimal is read back exactly by safeStoi. */
  lemma SafeStoiReadsInt(n: int)
    requires IntMin <= n <= IntMax
    ensures SafeStoi(IntToString(n)) == n
  {
    StoiReadsIntToString(n, "");
    assert IntToString(n) + "" == IntToString(n);
  }
}
