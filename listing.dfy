/**
 * The dict literal of `parse_funda_results` that flattens one search hit into
 * a row. Every accessor answers `None` where the Python expression raises, in
 * which case the listing is skipped.
 */
module Listing {
  import opened Base
  import opened Dicts
  import opened Text
  import opened Json
  import opened Schema
  import opened Oracles

  /** `d.get(key, [None])[0]`: the first element, or `None` when the key is absent. */
  function FirstOf(d: Value, key: string): (r: Option<Value>)
    ensures !d.Obj? ==> r.None?
    ensures d.Obj? && key !in Keys(d.fields) ==> r == Some(Null)
    ensures Index(d, key).Some? && Index(d, key).value.Arr? ==>
      var xs := Index(d, key).value.items;
      (r.Some? <==> |xs| > 0) && (|xs| > 0 ==> r == Some(xs[0]))
  {
    var xs :- Get(d, key, Arr([Null]));
    Item0(xs)
  }

  /** `d.get("agent", [{}])[0].get(key, "")`: a field of the first agent. */
  function AgentField(d: Value, key: string): (r: Option<Value>)
    ensures !d.Obj? ==> r.None?
    ensures d.Obj? && "agent" !in Keys(d.fields) ==> r == Some(Str(""))
    ensures Index(d, "agent").Some? && Index(d, "agent").value.Arr? ==>
      var xs := Index(d, "agent").value.items;
      (|xs| == 0 ==> r.None?) && (|xs| > 0 && xs[0].Obj? ==> r == Get(xs[0], key, Str("")))
  {
    var agents :- Get(d, "agent", Arr([Obj([])]));
    var first :- Item0(agents);
    Get(first, key, Str(""))
  }

  /** `",".join(d.get(key, []))`: the items in source order, separated by commas. */
  function CommaJoined(d: Value, key: string): (r: Option<Value>)
    ensures !d.Obj? ==> r.None?
    ensures d.Obj? && key !in Keys(d.fields) ==> r == Some(Str(""))
    ensures Index(d, key).Some? && Index(d, key).value.Arr? && AllStrings(Index(d, key).value.items) ==>
      r == Some(Str(Join(",", StringsOf(Index(d, key).value.items))))
  {
    var xs :- Get(d, key, Arr([]));
    var s :- JoinWith(",", xs);
    Some(Str(s))
  }

  /** `str(range.get(bound, ""))`: the text a missing or present bound contributes to a rendered range. */
  function BoundText(range: seq<(string, Value)>, bound: string, show: Value -> string): (s: string)
    ensures bound !in Keys(range) ==> s == ""
  {
    match Lookup(range, bound)
    case None => ""
    case Some(v) => Render(v, show)
  }

  /** `f"{d.get(key, {}).get('gte', '')}~{d.get(key, {}).get('lte', '')}"` */
  function DateRange(d: Value, key: string, show: Value -> string): (r: Option<Value>)
    ensures !d.Obj? ==> r.None?
    ensures d.Obj? && key !in Keys(d.fields) ==> r == Some(Str("~"))
    ensures Index(d, key).Some? && Index(d, key).value.Obj? ==>
      var range := Index(d, key).value.fields;
      r == Some(Str(BoundText(range, "gte", show) + "~" + BoundText(range, "lte", show)))
  {
    var range :- Get(d, key, Obj([]));
    NoBounds(show);
    if !range.Obj? then None
    else Some(Str(BoundText(range.fields, "gte", show) + "~" + BoundText(range.fields, "lte", show)))
  }

  /** An absent range renders as a lone tilde. */
  lemma NoBounds(show: Value -> string)
    ensures BoundText([], "gte", show) + "~" + BoundText([], "lte", show) == "~"
  {
    assert Keys<string, Value>([]) == [];
  }

  /** `d.get(key, {}).get(sub, "")` */
  function NestedText(d: Value, key: string, sub: string): (r: Option<Value>)
    ensures !d.Obj? ==> r.None?
    ensures d.Obj? && key !in Keys(d.fields) ==> r == Some(Str(""))
    ensures Index(d, key).Some? && Index(d, key).value.Obj? ==> r == Get(Index(d, key).value, sub, Str(""))
  {
    var inner :- Get(d, key, Obj([]));
    Get(inner, sub, Str(""))
  }

  /** Values of the listing id and the first agent's fields. */
  function AgentValues(listing: Value, d: Value): (r: Option<seq<Value>>)
    ensures r.Some? ==>
      && |r.value| == |AgentColumns()|
      && Index(listing, "_id") == Some(r.value[0])
      && AgentField(d, "id") == Some(r.value[1])
      && AgentField(d, "relative_url") == Some(r.value[2])
      && AgentField(d, "name") == Some(r.value[3])
      && AgentField(d, "association") == Some(r.value[4])
  {
    var id :- Index(listing, "_id");
    var agentId :- AgentField(d, "id");
    var agentUrl :- AgentField(d, "relative_url");
    var agentName :- AgentField(d, "name");
    var association :- AgentField(d, "association");
    Some([id, agentId, agentUrl, agentName, association])
  }

  /** Values of the address fields of the `address` dict; country and postal code are required. */
  function AddressFields(a: Value): (r: Option<seq<Value>>)
    ensures r.Some? ==>
      && |r.value| == |AddressColumns()|
      && Index(a, "country") == Some(r.value[0])
      && Get(a, "province", Str("")) == Some(r.value[1])
      && Get(a, "city", Str("")) == Some(r.value[2])
      && Get(a, "neighbourhood", Str("")) == Some(r.value[3])
      && Get(a, "municipality", Str("")) == Some(r.value[4])
      && Get(a, "house_number", Str("")) == Some(r.value[5])
      && Get(a, "house_number_suffix", Str("")) == Some(r.value[6])
      && Index(a, "postal_code") == Some(r.value[7])
      && Get(a, "street_name", Str("")) == Some(r.value[8])
  {
    var country :- Index(a, "country");
    var province :- Get(a, "province", Str(""));
    var city :- Get(a, "city", Str(""));
    var neighbourhood :- Get(a, "neighbourhood", Str(""));
    var municipality :- Get(a, "municipality", Str(""));
    var number :- Get(a, "house_number", Str(""));
    var suffix :- Get(a, "house_number_suffix", Str(""));
    var postal :- Index(a, "postal_code");
    var street :- Get(a, "street_name", Str(""));
    Some([country, province, city, neighbourhood, municipality, number, suffix, postal, street])
  }

  /** Values of the address fields; `address` is required. */
  function AddressValues(d: Value): (r: Option<seq<Value>>)
    ensures r.Some? <==> Has(d, "address") && AddressFields(Index(d, "address").value).Some?
    ensures r.Some? ==> r == AddressFields(Index(d, "address").value)
  {
    var a :- Index(d, "address");
    AddressFields(a)
  }

  /** Values of rooms, object type, energy label and areas. */
  function FeatureValues(d: Value): (r: Option<seq<Value>>)
    ensures r.Some? ==>
      && |r.value| == |FeatureColumns()|
      && Get(d, "number_of_bedrooms", Null) == Some(r.value[0])
      && Get(d, "number_of_rooms", Null) == Some(r.value[1])
      && Get(d, "object_type", Null) == Some(r.value[2])
      && Get(d, "energy_label", Null) == Some(r.value[3])
      && FirstOf(d, "floor_area") == Some(r.value[4])
      && FirstOf(d, "plot_area") == Some(r.value[5])
  {
    var bedrooms :- Get(d, "number_of_bedrooms", Null);
    var rooms :- Get(d, "number_of_rooms", Null);
    var objectType :- Get(d, "object_type", Null);
    var energyLabel :- Get(d, "energy_label", Null);
    var floor :- FirstOf(d, "floor_area");
    var plot :- FirstOf(d, "plot_area");
    Some([bedrooms, rooms, objectType, energyLabel, floor, plot])
  }

  /** Values of publication, price and availability; publish date, url and price are required. */
  function TermsValues(d: Value): (r: Option<seq<Value>>)
    ensures r.Some? ==>
      && |r.value| == |TermsColumns()|
      && Index(d, "publish_date") == Some(r.value[0])
      && Index(d, "object_detail_page_relative_url") == Some(r.value[1])
      && Get(d, "status", Str("")) == Some(r.value[2])
      && Has(d, "price")
      && FirstOf(Index(d, "price").value, "selling_price") == Some(r.value[3])
      && Get(Index(d, "price").value, "selling_price_type", Str("")) == Some(r.value[4])
      && Get(Index(d, "price").value, "selling_price_condition", Str("")) == Some(r.value[5])
      && Get(d, "placement_type", Str("")) == Some(r.value[6])
      && Get(d, "availability", Str("")) == Some(r.value[7])
  {
    var published :- Index(d, "publish_date");
    var url :- Index(d, "object_detail_page_relative_url");
    var status :- Get(d, "status", Str(""));
    var p :- Index(d, "price");
    var price :- FirstOf(p, "selling_price");
    var priceType :- Get(p, "selling_price_type", Str(""));
    var condition :- Get(p, "selling_price_condition", Str(""));
    var placement :- Get(d, "placement_type", Str(""));
    var availability :- Get(d, "availability", Str(""));
    Some([published, url, status, price, priceType, condition, placement, availability])
  }

  /** Values of amenities, construction, offering type and project. */
  function ConstructionValues(d: Value, show: Value -> string): (r: Option<seq<Value>>)
    ensures r.Some? ==>
      && |r.value| == |ConstructionColumns()|
      && CommaJoined(d, "amenities") == Some(r.value[0])
      && DateRange(d, "construction_date_range", show) == Some(r.value[1])
      && Get(d, "construction_period", Str("")) == Some(r.value[2])
      && Get(d, "construction_type", Str("")) == Some(r.value[3])
      && Get(d, "offering_type", Str("")) == Some(r.value[4])
      && NestedText(d, "project", "id") == Some(r.value[5])
  {
    var amenities :- CommaJoined(d, "amenities");
    var built :- DateRange(d, "construction_date_range", show);
    var period :- Get(d, "construction_period", Str(""));
    var kind :- Get(d, "construction_type", Str(""));
    var offering :- Get(d, "offering_type", Str(""));
    var project :- NestedText(d, "project", "id");
    Some([amenities, built, period, kind, offering, project])
  }

  /** Values of sale dates, area, description, zoning and surroundings. */
  function SaleValues(d: Value, show: Value -> string): (r: Option<seq<Value>>)
    ensures r.Some? ==>
      && |r.value| == |SaleColumns()|
      && DateRange(d, "sale_date_range", show) == Some(r.value[0])
      && Get(d, "selected_area", Str("")) == Some(r.value[1])
      && NestedText(d, "description", "dutch") == Some(r.value[2])
      && NestedText(d, "description", "tags") == Some(r.value[3])
      && Get(d, "zoning", Str("")) == Some(r.value[4])
      && CommaJoined(d, "surrounding") == Some(r.value[5])
  {
    var sold :- DateRange(d, "sale_date_range", show);
    var area :- Get(d, "selected_area", Str(""));
    var description :- NestedText(d, "description", "dutch");
    var tags :- NestedText(d, "description", "tags");
    var zoning :- Get(d, "zoning", Str(""));
    var surrounding :- CommaJoined(d, "surrounding");
    Some([sold, area, description, tags, zoning, surrounding])
  }

  /** Values of outdoor space and garage. */
  function ExteriorValues(d: Value): (r: Option<seq<Value>>)
    ensures r.Some? ==>
      && |r.value| == |ExteriorColumns()|
      && Get(d, "exterior_space_garden_size", Str("")) == Some(r.value[0])
      && Get(d, "exterior_space_type", Str("")) == Some(r.value[1])
      && Get(d, "exterior_space_garden_orientation", Str("")) == Some(r.value[2])
      && Get(d, "garage_capacity", Str("")) == Some(r.value[3])
      && Get(d, "garage_type", Str("")) == Some(r.value[4])
  {
    var garden :- Get(d, "exterior_space_garden_size", Str(""));
    var kind :- Get(d, "exterior_space_type", Str(""));
    var orientation :- Get(d, "exterior_space_garden_orientation", Str(""));
    var capacity :- Get(d, "garage_capacity", Str(""));
    var garage :- Get(d, "garage_type", Str(""));
    Some([garden, kind, orientation, capacity, garage])
  }

  /** The values of the seven parts in order; the literal raises as soon as one part does. */
  function Assemble(a: Option<seq<Value>>, b: Option<seq<Value>>, c: Option<seq<Value>>, t: Option<seq<Value>>,
                    k: Option<seq<Value>>, s: Option<seq<Value>>, e: Option<seq<Value>>): (r: Option<seq<Value>>)
    ensures r.Some? <==> a.Some? && b.Some? && c.Some? && t.Some? && k.Some? && s.Some? && e.Some?
  {
    if a.Some? && b.Some? && c.Some? && t.Some? && k.Some? && s.Some? && e.Some?
    then Some(a.value + b.value + c.value + t.value + k.value + s.value + e.value)
    else None
  }

  /** All 45 values of the listing literal, in the order the literal writes them. */
  function ListingValues(listing: Value, show: Value -> string): (r: Option<seq<Value>>)
    ensures r.Some? ==> |r.value| == |ListingColumns()|
  {
    var d :- Index(listing, "_source");
    Assemble(AgentValues(listing, d), AddressValues(d), FeatureValues(d), TermsValues(d),
      ConstructionValues(d, show), SaleValues(d, show), ExteriorValues(d))
  }

  /** The flattened row of one hit (`listing_parsed`), or `None` when building it raises. */
  function Flatten(listing: Value, show: Value -> string): (r: Option<Row>)
    ensures r.Some? <==> ListingValues(listing, show).Some?
    ensures r.Some? ==> |r.value| == |ListingColumns()| && Keys(r.value) == ListingColumns()
    ensures r.Some? ==> Values(r.value) == ListingValues(listing, show).value
  {
    var vs :- ListingValues(listing, show);
    KeysZip(ListingColumns(), vs);
    ValuesZip(ListingColumns(), vs);
    Some(Zip(ListingColumns(), vs))
  }

  lemma ValuesZip<K, V>(ks: seq<K>, vs: seq<V>)
    requires |ks| == |vs|
    ensures Values(Zip(ks, vs)) == vs
  {
    ValuesAt(Zip(ks, vs));
  }

  lemma {:induction false} ValuesAt<K, V>(d: seq<(K, V)>)
    ensures forall i :: 0 <= i < |d| ==> Values(d)[i] == d[i].1
  {
    if d != [] {
      ValuesAt(d[1..]);
    }
  }

  /** `key in v` for a dict `v`. */
  predicate Has(v: Value, key: string) {
    Index(v, key).Some?
  }

  predicate DictIfPresent(d: Value, key: string) {
    Index(d, key).None? || Index(d, key).value.Obj?
  }

  predicate ListIfPresent(d: Value, key: string) {
    Index(d, key).None? || Index(d, key).value.Arr?
  }

  predicate NonEmptyIfPresent(d: Value, key: string) {
    Index(d, key).None? || (Index(d, key).value.Arr? && |Index(d, key).value.items| > 0)
  }

  predicate StringsIfPresent(d: Value, key: string) {
    Index(d, key).None? || (Index(d, key).value.Arr? && AllStrings(Index(d, key).value.items))
  }

  predicate DictsIfPresent(d: Value, key: string) {
    Index(d, key).None? ||
      (Index(d, key).value.Arr? && forall i :: 0 <= i < |Index(d, key).value.items| ==> Index(d, key).value.items[i].Obj?)
  }

  /**
   * The shapes the search API gives its fields: dicts where the literal calls
   * `get` on them, lists where it indexes or joins them.
   */
  predicate DetailsShaped(d: Value) {
    && d.Obj?
    && DictsIfPresent(d, "agent")
    && DictIfPresent(d, "address")
    && ListIfPresent(d, "floor_area")
    && ListIfPresent(d, "plot_area")
    && DictIfPresent(d, "price")
    && (Has(d, "price") ==> ListIfPresent(Index(d, "price").value, "selling_price"))
    && StringsIfPresent(d, "amenities")
    && StringsIfPresent(d, "surrounding")
    && DictIfPresent(d, "construction_date_range")
    && DictIfPresent(d, "sale_date_range")
    && DictIfPresent(d, "project")
    && DictIfPresent(d, "description")
  }

  predicate WellShaped(listing: Value) {
    listing.Obj? && (Has(listing, "_source") ==> DetailsShaped(Index(listing, "_source").value))
  }

  /**
   * The paths the literal reads with `[...]`, and the lists it takes
   * element 0 of when they are present.
   */
  predicate HasRequired(listing: Value) {
    && Has(listing, "_id")
    && Has(listing, "_source")
    && var d := Index(listing, "_source").value;
    && Has(d, "address") && Has(Index(d, "address").value, "country")
    && Has(Index(d, "address").value, "postal_code")
    && Has(d, "publish_date")
    && Has(d, "object_detail_page_relative_url")
    && Has(d, "price")
    && NonEmptyIfPresent(d, "agent")
    && NonEmptyIfPresent(d, "floor_area")
    && NonEmptyIfPresent(d, "plot_area")
    && NonEmptyIfPresent(Index(d, "price").value, "selling_price")
  }

  lemma AgentValuesDefined(listing: Value, d: Value)
    requires listing.Obj? && DetailsShaped(d)
    ensures AgentValues(listing, d).Some? <==> Has(listing, "_id") && NonEmptyIfPresent(d, "agent")
  {
    if Has(d, "agent") && |Index(d, "agent").value.items| > 0 {
      assert Index(d, "agent").value.items[0].Obj?;
    }
  }

  lemma AddressValuesDefined(d: Value)
    requires DetailsShaped(d)
    ensures AddressValues(d).Some? <==>
      Has(d, "address") && Has(Index(d, "address").value, "country") && Has(Index(d, "address").value, "postal_code")
  {
  }

  lemma FeatureValuesDefined(d: Value)
    requires DetailsShaped(d)
    ensures FeatureValues(d).Some? <==> NonEmptyIfPresent(d, "floor_area") && NonEmptyIfPresent(d, "plot_area")
  {
  }

  lemma TermsValuesDefined(d: Value)
    requires DetailsShaped(d)
    ensures TermsValues(d).Some? <==>
      && Has(d, "publish_date") && Has(d, "object_detail_page_relative_url") && Has(d, "price")
      && NonEmptyIfPresent(Index(d, "price").value, "selling_price")
  {
  }

  lemma OptionalValuesDefined(d: Value, show: Value -> string)
    requires DetailsShaped(d)
    ensures ConstructionValues(d, show).Some?
    ensures SaleValues(d, show).Some?
    ensures ExteriorValues(d).Some?
  {
  }

  /**
   * On listings of the expected shape, a hit is skipped exactly when a
   * required path is missing or a list it takes element 0 of is empty.
   */
  lemma {:induction false} FlattenDefinedExactly(listing: Value, show: Value -> string)
    requires WellShaped(listing)
    ensures Flatten(listing, show).Some? <==> HasRequired(listing)
  {
    if Has(listing, "_source") {
      var d := Index(listing, "_source").value;
      AgentValuesDefined(listing, d);
      AddressValuesDefined(d);
      FeatureValuesDefined(d);
      TermsValuesDefined(d);
      OptionalValuesDefined(d, show);
    }
  }

  /** Column i of a flattened row holds value i of the literal. */
  lemma FlattenLookup(listing: Value, show: Value -> string, i: nat)
    requires Flatten(listing, show).Some? && i < |ListingColumns()|
    ensures Lookup(Flatten(listing, show).value, ListingColumns()[i]) == Some(ListingValues(listing, show).value[i])
  {
    var vs := ListingValues(listing, show).value;
    var r := Flatten(listing, show).value;
    KeysZip(ListingColumns(), vs);
    ListingColumnsDistinct();
    LookupDistinctAt(r, i);
  }

  /** A listing column holds the literal's value at the column's position. */
  lemma FlattenAt(listing: Value, show: Value -> string, c: Column)
    requires Flatten(listing, show).Some? && Ord(c) < 45
    ensures Lookup(Flatten(listing, show).value, c) == Some(ListingValues(listing, show).value[Ord(c)])
  {
    ListingColumnsOrd();
    OrdInjective(ListingColumns()[Ord(c)], c);
    FlattenLookup(listing, show, Ord(c));
  }

  /** The parts of a flattened row, chunk by chunk. */
  lemma ListingValuesParts(listing: Value, show: Value -> string)
    requires ListingValues(listing, show).Some?
    ensures var d := Index(listing, "_source").value;
      && AgentValues(listing, d).Some? && AddressValues(d).Some? && FeatureValues(d).Some?
      && TermsValues(d).Some? && ConstructionValues(d, show).Some? && SaleValues(d, show).Some?
      && ExteriorValues(d).Some?
      && ListingValues(listing, show).value == AgentValues(listing, d).value + AddressValues(d).value
           + FeatureValues(d).value + TermsValues(d).value + ConstructionValues(d, show).value
           + SaleValues(d, show).value + ExteriorValues(d).value
  {
  }

  /** The literal's values chunk by chunk, as slices. */
  lemma ListingValuesSlices(listing: Value, show: Value -> string)
    requires ListingValues(listing, show).Some?
    ensures var d := Index(listing, "_source").value;
      var vs := ListingValues(listing, show).value;
      && AgentValues(listing, d).Some? && vs[..5] == AgentValues(listing, d).value
      && AddressValues(d).Some? && vs[5..14] == AddressValues(d).value
      && FeatureValues(d).Some? && vs[14..20] == FeatureValues(d).value
      && TermsValues(d).Some? && vs[20..28] == TermsValues(d).value
      && ConstructionValues(d, show).Some? && vs[28..34] == ConstructionValues(d, show).value
      && SaleValues(d, show).Some? && vs[34..40] == SaleValues(d, show).value
      && ExteriorValues(d).Some? && vs[40..] == ExteriorValues(d).value
  {
    ListingValuesParts(listing, show);
    var d := Index(listing, "_source").value;
    ConcatParts(AgentValues(listing, d).value, AddressValues(d).value, FeatureValues(d).value, TermsValues(d).value,
      ConstructionValues(d, show).value, SaleValues(d, show).value, ExteriorValues(d).value,
      ListingValues(listing, show).value);
  }

  /** Literal values 0 to 4: listing id and agent. */
  lemma AgentAt(listing: Value, d: Value, vs: seq<Value>)
    requires AgentValues(listing, d).Some? && |vs| == 45 && vs[..5] == AgentValues(listing, d).value
    ensures Index(listing, "_id") == Some(vs[0])
    ensures AgentField(d, "id") == Some(vs[1])
    ensures AgentField(d, "relative_url") == Some(vs[2])
    ensures AgentField(d, "name") == Some(vs[3])
    ensures AgentField(d, "association") == Some(vs[4])
  {
    assert vs[0] == vs[..5][0] && vs[1] == vs[..5][1] && vs[2] == vs[..5][2] &&
      vs[3] == vs[..5][3] && vs[4] == vs[..5][4];
  }

  /** Literal values 5 to 13: the address. */
  lemma AddressAt(d: Value, vs: seq<Value>)
    requires AddressValues(d).Some? && |vs| == 45 && vs[5..14] == AddressValues(d).value
    ensures Has(d, "address")
    ensures var a := Index(d, "address").value;
      && Index(a, "country") == Some(vs[5])
      && Get(a, "province", Str("")) == Some(vs[6])
      && Get(a, "city", Str("")) == Some(vs[7])
      && Get(a, "neighbourhood", Str("")) == Some(vs[8])
      && Get(a, "municipality", Str("")) == Some(vs[9])
      && Get(a, "house_number", Str("")) == Some(vs[10])
      && Get(a, "house_number_suffix", Str("")) == Some(vs[11])
      && Index(a, "postal_code") == Some(vs[12])
      && Get(a, "street_name", Str("")) == Some(vs[13])
  {
    assert vs[5] == vs[5..14][0] && vs[6] == vs[5..14][1] && vs[7] == vs[5..14][2] &&
      vs[8] == vs[5..14][3] && vs[9] == vs[5..14][4] && vs[10] == vs[5..14][5] &&
      vs[11] == vs[5..14][6] && vs[12] == vs[5..14][7] && vs[13] == vs[5..14][8];
  }

  /** Literal values 14 to 19: rooms, object type, energy label and areas. */
  lemma FeaturesAt(d: Value, vs: seq<Value>)
    requires FeatureValues(d).Some? && |vs| == 45 && vs[14..20] == FeatureValues(d).value
    ensures Get(d, "number_of_bedrooms", Null) == Some(vs[14])
    ensures Get(d, "number_of_rooms", Null) == Some(vs[15])
    ensures Get(d, "object_type", Null) == Some(vs[16])
    ensures Get(d, "energy_label", Null) == Some(vs[17])
    ensures FirstOf(d, "floor_area") == Some(vs[18])
    ensures FirstOf(d, "plot_area") == Some(vs[19])
  {
    assert vs[14] == vs[14..20][0] && vs[15] == vs[14..20][1] && vs[16] == vs[14..20][2] &&
      vs[17] == vs[14..20][3] && vs[18] == vs[14..20][4] && vs[19] == vs[14..20][5];
  }

  /** Literal values 20 to 27: publication, price and availability. */
  lemma TermsAt(d: Value, vs: seq<Value>)
    requires TermsValues(d).Some? && |vs| == 45 && vs[20..28] == TermsValues(d).value
    ensures Has(d, "price")
    ensures var p := Index(d, "price").value;
      && Index(d, "publish_date") == Some(vs[20])
      && Index(d, "object_detail_page_relative_url") == Some(vs[21])
      && Get(d, "status", Str("")) == Some(vs[22])
      && FirstOf(p, "selling_price") == Some(vs[23])
      && Get(p, "selling_price_type", Str("")) == Some(vs[24])
      && Get(p, "selling_price_condition", Str("")) == Some(vs[25])
      && Get(d, "placement_type", Str("")) == Some(vs[26])
      && Get(d, "availability", Str("")) == Some(vs[27])
  {
    assert vs[20] == vs[20..28][0] && vs[21] == vs[20..28][1] && vs[22] == vs[20..28][2] &&
      vs[23] == vs[20..28][3] && vs[24] == vs[20..28][4] && vs[25] == vs[20..28][5] &&
      vs[26] == vs[20..28][6] && vs[27] == vs[20..28][7];
  }

  /** Literal values 28 to 33: amenities, construction, offering type and project. */
  lemma ConstructionAt(d: Value, show: Value -> string, vs: seq<Value>)
    requires ConstructionValues(d, show).Some? && |vs| == 45 && vs[28..34] == ConstructionValues(d, show).value
    ensures CommaJoined(d, "amenities") == Some(vs[28])
    ensures DateRange(d, "construction_date_range", show) == Some(vs[29])
    ensures Get(d, "construction_period", Str("")) == Some(vs[30])
    ensures Get(d, "construction_type", Str("")) == Some(vs[31])
    ensures Get(d, "offering_type", Str("")) == Some(vs[32])
    ensures NestedText(d, "project", "id") == Some(vs[33])
  {
    assert vs[28] == vs[28..34][0] && vs[29] == vs[28..34][1] && vs[30] == vs[28..34][2] &&
      vs[31] == vs[28..34][3] && vs[32] == vs[28..34][4] && vs[33] == vs[28..34][5];
  }

  /** Literal values 34 to 39: sale dates, area, description, zoning and surroundings. */
  lemma SaleAt(d: Value, show: Value -> string, vs: seq<Value>)
    requires SaleValues(d, show).Some? && |vs| == 45 && vs[34..40] == SaleValues(d, show).value
    ensures DateRange(d, "sale_date_range", show) == Some(vs[34])
    ensures Get(d, "selected_area", Str("")) == Some(vs[35])
    ensures NestedText(d, "description", "dutch") == Some(vs[36])
    ensures NestedText(d, "description", "tags") == Some(vs[37])
    ensures Get(d, "zoning", Str("")) == Some(vs[38])
    ensures CommaJoined(d, "surrounding") == Some(vs[39])
  {
    assert vs[34] == vs[34..40][0] && vs[35] == vs[34..40][1] && vs[36] == vs[34..40][2] &&
      vs[37] == vs[34..40][3] && vs[38] == vs[34..40][4] && vs[39] == vs[34..40][5];
  }

  /** Literal values 40 to 44: outdoor space and garage. */
  lemma ExteriorAt(d: Value, vs: seq<Value>)
    requires ExteriorValues(d).Some? && |vs| == 45 && vs[40..] == ExteriorValues(d).value
    ensures Get(d, "exterior_space_garden_size", Str("")) == Some(vs[40])
    ensures Get(d, "exterior_space_type", Str("")) == Some(vs[41])
    ensures Get(d, "exterior_space_garden_orientation", Str("")) == Some(vs[42])
    ensures Get(d, "garage_capacity", Str("")) == Some(vs[43])
    ensures Get(d, "garage_type", Str("")) == Some(vs[44])
  {
    assert vs[40] == vs[40..][0] && vs[41] == vs[40..][1] && vs[42] == vs[40..][2] &&
      vs[43] == vs[40..][3] && vs[44] == vs[40..][4];
  }

  /** The listing id and the four agent columns of a row. */
  lemma FlattenAgent(listing: Value, show: Value -> string)
    requires Flatten(listing, show).Some?
    ensures var d := Index(listing, "_source").value;
      var r := Flatten(listing, show).value;
      && Lookup(r, ListingId) == Index(listing, "_id")
      && Lookup(r, AgentId) == AgentField(d, "id")
      && Lookup(r, AgentUrl) == AgentField(d, "relative_url")
      && Lookup(r, AgentName) == AgentField(d, "name")
      && Lookup(r, AgentAssociation) == AgentField(d, "association")
  {
    ListingValuesSlices(listing, show);
    var d := Index(listing, "_source").value;
    var vs := ListingValues(listing, show).value;
    AgentAt(listing, d, vs);
    ListingColumnsAt();
    FlattenLookup(listing, show, 0);
    FlattenLookup(listing, show, 1);
    FlattenLookup(listing, show, 2);
    FlattenLookup(listing, show, 3);
    FlattenLookup(listing, show, 4);
  }

  /** The nine address columns of a row. */
  lemma FlattenAddress(listing: Value, show: Value -> string)
    requires Flatten(listing, show).Some?
    ensures var d := Index(listing, "_source").value;
      var r := Flatten(listing, show).value;
      && Has(d, "address")
      && var a := Index(d, "address").value;
      && Lookup(r, AddressCountry) == Index(a, "country")
      && Lookup(r, AddressProvince) == Get(a, "province", Str(""))
      && Lookup(r, AddressCity) == Get(a, "city", Str(""))
      && Lookup(r, AddressNeighbourhood) == Get(a, "neighbourhood", Str(""))
      && Lookup(r, AddressMunicipality) == Get(a, "municipality", Str(""))
      && Lookup(r, AddressHouseNumber) == Get(a, "house_number", Str(""))
      && Lookup(r, AddressHouseNumberSuffix) == Get(a, "house_number_suffix", Str(""))
      && Lookup(r, AddressPostalCode) == Index(a, "postal_code")
      && Lookup(r, AddressStreetName) == Get(a, "street_name", Str(""))
  {
    ListingValuesSlices(listing, show);
    var d := Index(listing, "_source").value;
    var vs := ListingValues(listing, show).value;
    AddressAt(d, vs);
    ListingColumnsAt();
    FlattenLookup(listing, show, 5);
    FlattenLookup(listing, show, 6);
    FlattenLookup(listing, show, 7);
    FlattenLookup(listing, show, 8);
    FlattenLookup(listing, show, 9);
    FlattenLookup(listing, show, 10);
    FlattenLookup(listing, show, 11);
    FlattenLookup(listing, show, 12);
    FlattenLookup(listing, show, 13);
  }

  /** The six feature columns of a row. */
  lemma FlattenFeatures(listing: Value, show: Value -> string)
    requires Flatten(listing, show).Some?
    ensures var d := Index(listing, "_source").value;
      var r := Flatten(listing, show).value;
      && Lookup(r, NumberOfBedrooms) == Get(d, "number_of_bedrooms", Null)
      && Lookup(r, NumberOfRooms) == Get(d, "number_of_rooms", Null)
      && Lookup(r, ObjectType) == Get(d, "object_type", Null)
      && Lookup(r, EnergyLabel) == Get(d, "energy_label", Null)
      && Lookup(r, FloorArea) == FirstOf(d, "floor_area")
      && Lookup(r, PlotArea) == FirstOf(d, "plot_area")
  {
    ListingValuesSlices(listing, show);
    var d := Index(listing, "_source").value;
    var vs := ListingValues(listing, show).value;
    FeaturesAt(d, vs);
    ListingColumnsAt();
    FlattenLookup(listing, show, 14);
    FlattenLookup(listing, show, 15);
    FlattenLookup(listing, show, 16);
    FlattenLookup(listing, show, 17);
    FlattenLookup(listing, show, 18);
    FlattenLookup(listing, show, 19);
  }

  /** The eight publication, price and availability columns of a row. */
  lemma FlattenTerms(listing: Value, show: Value -> string)
    requires Flatten(listing, show).Some?
    ensures var d := Index(listing, "_source").value;
      var r := Flatten(listing, show).value;
      && Has(d, "price")
      && var p := Index(d, "price").value;
      && Lookup(r, PublishDate) == Index(d, "publish_date")
      && Lookup(r, UrlPath) == Index(d, "object_detail_page_relative_url")
      && Lookup(r, Status) == Get(d, "status", Str(""))
      && Lookup(r, Price) == FirstOf(p, "selling_price")
      && Lookup(r, PriceType) == Get(p, "selling_price_type", Str(""))
      && Lookup(r, PriceCondition) == Get(p, "selling_price_condition", Str(""))
      && Lookup(r, PlacementType) == Get(d, "placement_type", Str(""))
      && Lookup(r, Availability) == Get(d, "availability", Str(""))
  {
    ListingValuesSlices(listing, show);
    var d := Index(listing, "_source").value;
    var vs := ListingValues(listing, show).value;
    TermsAt(d, vs);
    ListingColumnsAt();
    FlattenLookup(listing, show, 20);
    FlattenLookup(listing, show, 21);
    FlattenLookup(listing, show, 22);
    FlattenLookup(listing, show, 23);
    FlattenLookup(listing, show, 24);
    FlattenLookup(listing, show, 25);
    FlattenLookup(listing, show, 26);
    FlattenLookup(listing, show, 27);
  }

  /** The amenities and the three construction columns of a row. */
  lemma FlattenConstruction(listing: Value, show: Value -> string)
    requires Flatten(listing, show).Some?
    ensures var d := Index(listing, "_source").value;
      var r := Flatten(listing, show).value;
      && Lookup(r, Amenities) == CommaJoined(d, "amenities")
      && Lookup(r, ConstructionDateRange) == DateRange(d, "construction_date_range", show)
      && Lookup(r, ConstructionPeriod) == Get(d, "construction_period", Str(""))
      && Lookup(r, ConstructionType) == Get(d, "construction_type", Str(""))
  {
    ListingValuesSlices(listing, show);
    var d := Index(listing, "_source").value;
    var vs := ListingValues(listing, show).value;
    ConstructionAt(d, show, vs);
    ListingColumnsAt();
    FlattenLookup(listing, show, 28);
    FlattenLookup(listing, show, 29);
    FlattenLookup(listing, show, 30);
    FlattenLookup(listing, show, 31);
  }

  /** The offering type and project columns of a row. */
  lemma FlattenOffering(listing: Value, show: Value -> string)
    requires Flatten(listing, show).Some?
    ensures var d := Index(listing, "_source").value;
      var r := Flatten(listing, show).value;
      && Lookup(r, OfferingType) == Get(d, "offering_type", Str(""))
      && Lookup(r, Project) == NestedText(d, "project", "id")
  {
    ListingValuesSlices(listing, show);
    var d := Index(listing, "_source").value;
    var vs := ListingValues(listing, show).value;
    ConstructionAt(d, show, vs);
    ListingColumnsAt();
    FlattenLookup(listing, show, 32);
    FlattenLookup(listing, show, 33);
  }

  /** The six sale, area, description, zoning and surroundings columns of a row. */
  lemma FlattenSale(listing: Value, show: Value -> string)
    requires Flatten(listing, show).Some?
    ensures var d := Index(listing, "_source").value;
      var r := Flatten(listing, show).value;
      && Lookup(r, SaleDateRange) == DateRange(d, "sale_date_range", show)
      && Lookup(r, SelectedArea) == Get(d, "selected_area", Str(""))
      && Lookup(r, Description) == NestedText(d, "description", "dutch")
      && Lookup(r, DescriptionTags) == NestedText(d, "description", "tags")
      && Lookup(r, Zoning) == Get(d, "zoning", Str(""))
      && Lookup(r, Surrounding) == CommaJoined(d, "surrounding")
  {
    ListingValuesSlices(listing, show);
    var d := Index(listing, "_source").value;
    var vs := ListingValues(listing, show).value;
    SaleAt(d, show, vs);
    ListingColumnsAt();
    FlattenLookup(listing, show, 34);
    FlattenLookup(listing, show, 35);
    FlattenLookup(listing, show, 36);
    FlattenLookup(listing, show, 37);
    FlattenLookup(listing, show, 38);
    FlattenLookup(listing, show, 39);
  }

  /** The five outdoor space and garage columns of a row. */
  lemma FlattenExterior(listing: Value, show: Value -> string)
    requires Flatten(listing, show).Some?
    ensures var d := Index(listing, "_source").value;
      var r := Flatten(listing, show).value;
      && Lookup(r, ExteriorSpaceGardenSize) == Get(d, "exterior_space_garden_size", Str(""))
      && Lookup(r, ExteriorSpaceType) == Get(d, "exterior_space_type", Str(""))
      && Lookup(r, ExteriorSpaceGardenOrientation) == Get(d, "exterior_space_garden_orientation", Str(""))
      && Lookup(r, GarageCapacity) == Get(d, "garage_capacity", Str(""))
      && Lookup(r, GarageType) == Get(d, "garage_type", Str(""))
  {
    ListingValuesSlices(listing, show);
    var d := Index(listing, "_source").value;
    var vs := ListingValues(listing, show).value;
    ExteriorAt(d, vs);
    ListingColumnsAt();
    FlattenLookup(listing, show, 40);
    FlattenLookup(listing, show, 41);
    FlattenLookup(listing, show, 42);
    FlattenLookup(listing, show, 43);
    FlattenLookup(listing, show, 44);
  }

  /** A missing agent list, missing address fields and missing features degrade to `""` or `None`. */
  lemma FlattenDefaults(listing: Value, show: Value -> string)
    requires Flatten(listing, show).Some?
    ensures var d := Index(listing, "_source").value;
      var r := Flatten(listing, show).value;
      && (!Has(d, "agent") ==>
            && Lookup(r, AgentId) == Some(Str("")) && Lookup(r, AgentUrl) == Some(Str(""))
            && Lookup(r, AgentName) == Some(Str("")) && Lookup(r, AgentAssociation) == Some(Str("")))
      && var a := Index(d, "address").value;
      && (!Has(a, "province") ==> Lookup(r, AddressProvince) == Some(Str("")))
      && (!Has(a, "city") ==> Lookup(r, AddressCity) == Some(Str("")))
      && (!Has(a, "neighbourhood") ==> Lookup(r, AddressNeighbourhood) == Some(Str("")))
      && (!Has(a, "municipality") ==> Lookup(r, AddressMunicipality) == Some(Str("")))
      && (!Has(a, "house_number") ==> Lookup(r, AddressHouseNumber) == Some(Str("")))
      && (!Has(a, "house_number_suffix") ==> Lookup(r, AddressHouseNumberSuffix) == Some(Str("")))
      && (!Has(a, "street_name") ==> Lookup(r, AddressStreetName) == Some(Str("")))
      && (!Has(d, "number_of_bedrooms") ==> Lookup(r, NumberOfBedrooms) == Some(Null))
      && (!Has(d, "number_of_rooms") ==> Lookup(r, NumberOfRooms) == Some(Null))
      && (!Has(d, "object_type") ==> Lookup(r, ObjectType) == Some(Null))
      && (!Has(d, "energy_label") ==> Lookup(r, EnergyLabel) == Some(Null))
      && (!Has(d, "floor_area") ==> Lookup(r, FloorArea) == Some(Null))
      && (!Has(d, "plot_area") ==> Lookup(r, PlotArea) == Some(Null))
  {
    FlattenAgent(listing, show);
    FlattenAddress(listing, show);
    FlattenFeatures(listing, show);
  }

  /** Missing price, availability and construction paths degrade to `""`, `None` or `"~"`. */
  lemma FlattenTermsDefaults(listing: Value, show: Value -> string)
    requires Flatten(listing, show).Some?
    ensures var d := Index(listing, "_source").value;
      var r := Flatten(listing, show).value;
      && (!Has(d, "status") ==> Lookup(r, Status) == Some(Str("")))
      && var p := Index(d, "price").value;
      && (!Has(p, "selling_price") ==> Lookup(r, Price) == Some(Null))
      && (!Has(p, "selling_price_type") ==> Lookup(r, PriceType) == Some(Str("")))
      && (!Has(p, "selling_price_condition") ==> Lookup(r, PriceCondition) == Some(Str("")))
      && (!Has(d, "placement_type") ==> Lookup(r, PlacementType) == Some(Str("")))
      && (!Has(d, "availability") ==> Lookup(r, Availability) == Some(Str("")))
      && (!Has(d, "amenities") ==> Lookup(r, Amenities) == Some(Str("")))
      && (!Has(d, "construction_date_range") ==> Lookup(r, ConstructionDateRange) == Some(Str("~")))
      && (!Has(d, "construction_period") ==> Lookup(r, ConstructionPeriod) == Some(Str("")))
      && (!Has(d, "construction_type") ==> Lookup(r, ConstructionType) == Some(Str("")))
      && (!Has(d, "offering_type") ==> Lookup(r, OfferingType) == Some(Str("")))
      && (!Has(d, "project") ==> Lookup(r, Project) == Some(Str("")))
  {
    FlattenTerms(listing, show);
    FlattenConstruction(listing, show);
    FlattenOffering(listing, show);
  }

  /** Missing sale, description, surroundings, outdoor space and garage paths degrade to `""` or `"~"`. */
  lemma FlattenSaleDefaults(listing: Value, show: Value -> string)
    requires Flatten(listing, show).Some?
    ensures var d := Index(listing, "_source").value;
      var r := Flatten(listing, show).value;
      && (!Has(d, "sale_date_range") ==> Lookup(r, SaleDateRange) == Some(Str("~")))
      && (!Has(d, "selected_area") ==> Lookup(r, SelectedArea) == Some(Str("")))
      && (!Has(d, "description") ==> Lookup(r, Description) == Some(Str("")) && Lookup(r, DescriptionTags) == Some(Str("")))
      && (!Has(d, "zoning") ==> Lookup(r, Zoning) == Some(Str("")))
      && (!Has(d, "surrounding") ==> Lookup(r, Surrounding) == Some(Str("")))
      && (!Has(d, "exterior_space_garden_size") ==> Lookup(r, ExteriorSpaceGardenSize) == Some(Str("")))
      && (!Has(d, "exterior_space_type") ==> Lookup(r, ExteriorSpaceType) == Some(Str("")))
      && (!Has(d, "exterior_space_garden_orientation") ==> Lookup(r, ExteriorSpaceGardenOrientation) == Some(Str("")))
      && (!Has(d, "garage_capacity") ==> Lookup(r, GarageCapacity) == Some(Str("")))
      && (!Has(d, "garage_type") ==> Lookup(r, GarageType) == Some(Str("")))
  {
    FlattenSale(listing, show);
    FlattenExterior(listing, show);
  }

  /** Present values are copied and the first elements of present lists taken. */
  lemma FlattenCopies(listing: Value, show: Value -> string)
    requires Flatten(listing, show).Some?
    ensures var d := Index(listing, "_source").value;
      var r := Flatten(listing, show).value;
      && Lookup(r, ListingId) == Index(listing, "_id")
      && Lookup(r, AddressCountry) == Index(Index(d, "address").value, "country")
      && Lookup(r, AddressPostalCode) == Index(Index(d, "address").value, "postal_code")
      && Lookup(r, PublishDate) == Index(d, "publish_date")
      && Lookup(r, UrlPath) == Index(d, "object_detail_page_relative_url")
      && (Index(d, "floor_area").Some? && Index(d, "floor_area").value.Arr? ==>
            Lookup(r, FloorArea) == Some(Index(d, "floor_area").value.items[0]))
      && (Index(d, "plot_area").Some? && Index(d, "plot_area").value.Arr? ==>
            Lookup(r, PlotArea) == Some(Index(d, "plot_area").value.items[0]))
      && var p := Index(d, "price").value;
      && (Index(p, "selling_price").Some? && Index(p, "selling_price").value.Arr? ==>
            Lookup(r, Price) == Some(Index(p, "selling_price").value.items[0]))
  {
    FlattenAgent(listing, show);
    FlattenAddress(listing, show);
    FlattenFeatures(listing, show);
    FlattenTerms(listing, show);
  }

  /** Present string lists are comma-joined and present ranges rendered `gte~lte`. */
  lemma FlattenRenders(listing: Value, show: Value -> string)
    requires Flatten(listing, show).Some?
    ensures var d := Index(listing, "_source").value;
      var r := Flatten(listing, show).value;
      && (StringsIfPresent(d, "amenities") && Has(d, "amenities") ==>
            Lookup(r, Amenities) == Some(Str(Join(",", StringsOf(Index(d, "amenities").value.items)))))
      && (StringsIfPresent(d, "surrounding") && Has(d, "surrounding") ==>
            Lookup(r, Surrounding) == Some(Str(Join(",", StringsOf(Index(d, "surrounding").value.items)))))
      && (DictIfPresent(d, "construction_date_range") && Has(d, "construction_date_range") ==>
            var range := Index(d, "construction_date_range").value.fields;
            Lookup(r, ConstructionDateRange) == Some(Str(BoundText(range, "gte", show) + "~" + BoundText(range, "lte", show))))
      && (DictIfPresent(d, "sale_date_range") && Has(d, "sale_date_range") ==>
            var range := Index(d, "sale_date_range").value.fields;
            Lookup(r, SaleDateRange) == Some(Str(BoundText(range, "gte", show) + "~" + BoundText(range, "lte", show))))
  {
    FlattenConstruction(listing, show);
    FlattenSale(listing, show);
  }

  /**
   * The older literal's entries: the same 45 entries, but `publish_date` is
   * written again after `project`, `offering_type` again (comma-joined) after
   * `surrounding`, and `object_type` again (defaulting to `""`) at the end.
   */
  function LegacyPairs(vs: seq<Value>, publishDate: Value, offering: Value, objectType: Value): (p: seq<(Column, Value)>)
    requires |vs| == |ListingColumns()|
    ensures |p| == 48
  {
    var z := Zip(ListingColumns(), vs);
    ListingColumnsSlices();
    z[..34] + [(PublishDate, publishDate)] + z[34..40] + [(OfferingType, offering)] + z[40..] + [(ObjectType, objectType)]
  }

  /** The flattened row of one hit in the older `parse_funda_results`, or `None` when building it raises. */
  function LegacyFlatten(listing: Value, show: Value -> string): (r: Option<Row>)
    ensures r.Some? <==>
      (ListingValues(listing, show).Some? && CommaJoined(Index(listing, "_source").value, "offering_type").Some?)
  {
    var vs :- ListingValues(listing, show);
    var d := Index(listing, "_source").value;
    var offering :- CommaJoined(d, "offering_type");
    Some(FromPairs(LegacyPairs(vs, Get(d, "publish_date", Str("")).value, offering, Get(d, "object_type", Str("")).value)))
  }

  /** Merging the repeated keys leaves the 45 columns in place with three values replaced. */
  lemma LegacyPairsMerge(vs: seq<Value>, publishDate: Value, offering: Value, objectType: Value)
    requires |vs| == |ListingColumns()|
    ensures FromPairs(LegacyPairs(vs, publishDate, offering, objectType))
      == Zip(ListingColumns(), vs)[20 := (PublishDate, publishDate)][32 := (OfferingType, offering)][16 := (ObjectType, objectType)]
  {
    var z := Zip(ListingColumns(), vs);
    assert z[20].0 == PublishDate && z[32].0 == OfferingType && z[16].0 == ObjectType by {
      FeatureColumnsAt();
      TermsColumnsAt();
      ConstructionColumnsAt();
    }
    assert Distinct(Keys(z)) by {
      ListingColumnsDistinct();
      KeysZip(ListingColumns(), vs);
    }
    DisplayPatch(z, 34, 40, (PublishDate, publishDate), 20, (OfferingType, offering), 32, (ObjectType, objectType), 16);
  }

  /**
   * The older row is the newer one with the values of `publish_date`,
   * `offering_type` and `object_type` replaced in place.
   */
  lemma LegacyFlattenPatchesFlatten(listing: Value, show: Value -> string)
    requires LegacyFlatten(listing, show).Some?
    ensures Flatten(listing, show).Some? && |Flatten(listing, show).value| == 45
    ensures var d := Index(listing, "_source").value;
      LegacyFlatten(listing, show).value
        == Flatten(listing, show).value
             [20 := (PublishDate, Get(d, "publish_date", Str("")).value)]
             [32 := (OfferingType, CommaJoined(d, "offering_type").value)]
             [16 := (ObjectType, Get(d, "object_type", Str("")).value)]
  {
    var vs := ListingValues(listing, show).value;
    var d := Index(listing, "_source").value;
    LegacyPairsMerge(vs, Get(d, "publish_date", Str("")).value, CommaJoined(d, "offering_type").value,
      Get(d, "object_type", Str("")).value);
  }

  /**
   * Column by column: the older row has the same columns in the same order;
   * `offering_type` holds its items comma-joined, `object_type` defaults to
   * `""` instead of None, and every other column (`publish_date` included,
   * which both versions require) holds what the newer row holds.
   */
  lemma LegacyFlattenLookup(listing: Value, show: Value -> string, c: Column)
    requires LegacyFlatten(listing, show).Some?
    ensures Flatten(listing, show).Some?
    ensures var d := Index(listing, "_source").value;
      var old_ := LegacyFlatten(listing, show).value;
      && Keys(old_) == ListingColumns()
      && Lookup(old_, c)
           == if c == ObjectType then Get(d, "object_type", Str(""))
              else if c == OfferingType then CommaJoined(d, "offering_type")
              else Lookup(Flatten(listing, show).value, c)
  {
    LegacyFlattenPatchesFlatten(listing, show);
    var d := Index(listing, "_source").value;
    var r := Flatten(listing, show).value;
    FeatureColumnsAt();
    TermsColumnsAt();
    ConstructionColumnsAt();
    ListingColumnsDistinct();
    FlattenTerms(listing, show);
    LookupUpdate3(r, 20, (PublishDate, Get(d, "publish_date", Str("")).value), 32, (OfferingType, CommaJoined(d, "offering_type").value),
      16, (ObjectType, Get(d, "object_type", Str("")).value), c);
  }

  /** A plain string under `offering_type` is joined character by character in the older row. */
  lemma LegacyOfferingSplitsString(listing: Value, show: Value -> string)
    requires LegacyFlatten(listing, show).Some?
    requires Index(Index(listing, "_source").value, "offering_type") == Some(Str("buy"))
    ensures Lookup(LegacyFlatten(listing, show).value, OfferingType) == Some(Str("b,u,y"))
  {
    LegacyFlattenLookup(listing, show, OfferingType);
    CommaJoinedSplitsString(Index(listing, "_source").value);
  }

  /** Joining a string iterates over its characters. */
  lemma CommaJoinedSplitsString(d: Value)
    requires Index(d, "offering_type") == Some(Str("buy"))
    ensures CommaJoined(d, "offering_type") == Some(Str("b,u,y"))
  {
    var cs := Chars("buy");
    assert cs == [Str("b"), Str("u"), Str("y")];
    assert StringsOf(cs) == ["b", "u", "y"];
    assert Join(",", ["b", "u", "y"]) == "b,u,y" by {
      assert ["b", "u", "y"][..2] == ["b", "u"];
      assert ["b", "u"][..1] == ["b"];
    }
  }
}
