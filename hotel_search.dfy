/**
 * `HotelSearchTool` (src/tools/search.py): the SerpApi request parameters
 * and the projection of the raw answer into at most ten hotel records. The
 * SerpApi call itself (`GoogleSearch(params).get_dict()`) is a parameter.
 */
module HotelSearch {
  import opened Wrappers
  import opened Json

  /** The tool holds only the key read at construction; nothing changes it afterwards. */
  datatype HotelSearchTool = HotelSearchTool(apiKey: string)

  /** A hotel record: a dictionary with seven keys. */
  type Hotel = Dict<Json>

  const HotelKeys: seq<string> := ["name", "description", "price", "rating", "reviews", "link", "amenities"]

  const MaxResults: nat := 10

  /** Python truthiness of an optional text argument: neither None nor "". */
  predicate Truthy(s: Option<string>)
  {
    s.Some? && s.value != ""
  }

  /** `HotelSearchTool.__init__`: `SERPAPI_KEY` from the environment, which must be set and non-empty. */
  function NewHotelSearchTool(serpapiKey: Option<string>): (r: Result<HotelSearchTool>)
    ensures r.Ok? <==> Truthy(serpapiKey)
    ensures r.Ok? ==> r.value.apiKey == serpapiKey.value
    ensures r.Err? ==> r.error.kind == "ValueError"
  {
    if Truthy(serpapiKey) then Ok(HotelSearchTool(serpapiKey.value))
    else Err(Exception("ValueError", "SERPAPI_KEY environment variable not set"))
  }

  /** The request dictionary `search_hotels` hands to SerpApi, built as the code builds it. */
  method BuildParams(tool: HotelSearchTool, query: string, checkIn: Option<string>, checkOut: Option<string>)
    returns (params: Dict<string>)
    ensures Lookup(params, "engine") == Some("google_hotels")
    ensures Lookup(params, "q") == Some(query)
    ensures Lookup(params, "api_key") == Some(tool.apiKey)
    ensures Lookup(params, "hl") == Some("en")
    ensures Lookup(params, "gl") == Some("us")
    ensures Lookup(params, "currency") == Some("JPY")
    ensures Lookup(params, "check_in_date") == (if Truthy(checkIn) then Some(checkIn.value) else None)
    ensures Lookup(params, "check_out_date") == (if Truthy(checkOut) then Some(checkOut.value) else None)
    ensures Keys(params) == ["engine", "q", "api_key", "hl", "gl", "currency"]
              + (if Truthy(checkIn) then ["check_in_date"] else [])
              + (if Truthy(checkOut) then ["check_out_date"] else [])
  {
    params := [("engine", "google_hotels"), ("q", query), ("api_key", tool.apiKey),
               ("hl", "en"), ("gl", "us"), ("currency", "JPY")];
    FixedParams(query, tool.apiKey, params);
    LookupAbsent(params, "check_in_date");
    LookupAbsent(params, "check_out_date");
    if Truthy(checkIn) {
      LookupAppend(params, "check_in_date", checkIn.value);
      params := params + [("check_in_date", checkIn.value)];
    }
    if Truthy(checkOut) {
      LookupAppend(params, "check_out_date", checkOut.value);
      params := params + [("check_out_date", checkOut.value)];
    }
  }

  lemma FixedParams(query: string, apiKey: string, params: Dict<string>)
    requires params == [("engine", "google_hotels"), ("q", query), ("api_key", apiKey),
                        ("hl", "en"), ("gl", "us"), ("currency", "JPY")]
    ensures Keys(params) == ["engine", "q", "api_key", "hl", "gl", "currency"]
    ensures Lookup(params, "engine") == Some("google_hotels")
    ensures Lookup(params, "q") == Some(query)
    ensures Lookup(params, "api_key") == Some(apiKey)
    ensures Lookup(params, "hl") == Some("en")
    ensures Lookup(params, "gl") == Some("us")
    ensures Lookup(params, "currency") == Some("JPY")
  {
    LookupMember(params, 0);
    LookupMember(params, 1);
    LookupMember(params, 2);
    LookupMember(params, 3);
    LookupMember(params, 4);
    LookupMember(params, 5);
  }

  /**
   * One hotel record from one raw property. `prop.get` fails unless the
   * property is a dict, and `.get("lowest", ...)` fails unless
   * `rate_per_night` is absent or a dict.
   */
  function Project(prop: Json): (r: Result<Hotel>)
    ensures r.Ok? <==> prop.JObject? && Get(prop.members, "rate_per_night", JObject([])).JObject?
    ensures r.Ok? ==> Keys(r.value) == HotelKeys
  {
    match prop
    case JObject(m) =>
      var rate := Get(m, "rate_per_night", JObject([]));
      if !rate.JObject? then Err(NoGet(rate))
      else
        Ok([("name", Get(m, "name", JNull)),
            ("description", Get(m, "description", JString(""))),
            ("price", Get(rate.members, "lowest", JString("N/A"))),
            ("rating", Get(m, "overall_rating", JNull)),
            ("reviews", Get(m, "reviews", JNull)),
            ("link", Get(m, "link", JNull)),
            ("amenities", Get(m, "amenities", JArray([])))])
    case _ => Err(NoGet(prop))
  }

  /**
   * What each key of a record holds: the property's own value when present,
   * otherwise the default (`""` for the description, `[]` for the amenities,
   * `"N/A"` for the price, None for the rest).
   */
  lemma ProjectDefaults(prop: Json, hotel: Hotel)
    requires Project(prop) == Ok(hotel)
    ensures Lookup(hotel, "name") == Some(Get(prop.members, "name", JNull))
    ensures Lookup(hotel, "rating") == Some(Get(prop.members, "overall_rating", JNull))
    ensures "description" !in Keys(prop.members) ==> Lookup(hotel, "description") == Some(JString(""))
    ensures "amenities" !in Keys(prop.members) ==> Lookup(hotel, "amenities") == Some(JArray([]))
    ensures "rate_per_night" !in Keys(prop.members) ==> Lookup(hotel, "price") == Some(JString("N/A"))
    ensures "rate_per_night" in Keys(prop.members) && "lowest" !in Keys(Get(prop.members, "rate_per_night", JObject([])).members)
            ==> Lookup(hotel, "price") == Some(JString("N/A"))
  {
    var m := prop.members;
    assert Distinct(HotelKeys);
    LookupMember(hotel, 0);
    LookupMember(hotel, 1);
    LookupMember(hotel, 2);
    LookupMember(hotel, 3);
    LookupMember(hotel, 6);
    if "description" !in Keys(m) {
      LookupAbsent(m, "description");
    }
    if "amenities" !in Keys(m) {
      LookupAbsent(m, "amenities");
    }
    if "rate_per_night" !in Keys(m) {
      LookupAbsent(m, "rate_per_night");
      LookupAbsent<Json>([], "lowest");
    } else {
      LookupFound(m, "rate_per_night");
      var rate := Get(m, "rate_per_night", JObject([]));
      if "lowest" !in Keys(rate.members) {
        LookupAbsent(rate.members, "lowest");
      }
    }
  }

  /** What `for prop in v` visits: a list's items, a dict's keys, a string's characters; other values are not iterable. */
  function Iterate(v: Json): Result<seq<Json>>
  {
    match v
    case JArray(items) => Ok(items)
    case JObject(members) => Ok(seq(|members|, i requires 0 <= i < |members| => JString(members[i].0)))
    case JString(s) => Ok(seq(|s|, i requires 0 <= i < |s| => JString([s[i]])))
    case _ => Err(Exception("TypeError", "'" + TypeName(v) + "' object is not iterable"))
  }

  /** The records of all properties in order, or the first failure met. */
  function ProjectEach(props: seq<Json>): Result<seq<Hotel>>
  {
    if |props| == 0 then Ok([])
    else match ProjectEach(props[..|props| - 1])
      case Err(e) => Err(e)
      case Ok(hotels) =>
        match Project(props[|props| - 1])
        case Err(e) => Err(e)
        case Ok(h) => Ok(hotels + [h])
  }

  /** The loop that appends one record per property; a failing property ends it with that failure. */
  method ProjectAll(props: seq<Json>) returns (r: Result<seq<Hotel>>)
    ensures r == ProjectEach(props)
  {
    var hotels: seq<Hotel> := [];
    var i := 0;
    while i < |props|
      invariant 0 <= i <= |props|
      invariant ProjectEach(props[..i]) == Ok(hotels)
    {
      assert props[..i + 1][..i] == props[..i];
      match Project(props[i])
      case Err(e) =>
        ErrorPrefix(props, i + 1);
        return Err(e);
      case Ok(h) =>
        hotels := hotels + [h];
      i := i + 1;
    }
    assert props[..i] == props;
    r := Ok(hotels);
  }

  /** A failure on a prefix is the failure of the whole. */
  lemma {:induction false} ErrorPrefix(props: seq<Json>, n: nat)
    requires n <= |props| && ProjectEach(props[..n]).Err?
    ensures ProjectEach(props) == ProjectEach(props[..n])
    decreases |props| - n
  {
    if n < |props| {
      assert props[..n + 1][..n] == props[..n];
      ErrorPrefix(props, n + 1);
    } else {
      assert props[..n] == props;
    }
  }

  /** Success means one record per property, each the projection of its property. */
  lemma {:induction false} ProjectEachOk(props: seq<Json>, hotels: seq<Hotel>)
    requires ProjectEach(props) == Ok(hotels)
    ensures |hotels| == |props|
    ensures forall i :: 0 <= i < |props| ==> Project(props[i]) == Ok(hotels[i])
  {
    if |props| > 0 {
      var init := props[..|props| - 1];
      var prev := ProjectEach(init).value;
      ProjectEachOk(init, prev);
      assert hotels == prev + [hotels[|hotels| - 1]];
    }
  }

  /** The answer once SerpApi has replied: no `properties` key gives no hotels; otherwise the first ten records. */
  function ShapeResults(results: Dict<Json>): Result<seq<Hotel>>
  {
    match Lookup(results, "properties")
    case None => Ok([])
    case Some(v) =>
      match Iterate(v)
      case Err(e) => Err(e)
      case Ok(props) =>
        match ProjectEach(props)
        case Err(e) => Err(e)
        case Ok(hotels) => Ok(if |hotels| <= MaxResults then hotels else hotels[..MaxResults])
  }

  /** The outcome of `search_hotels` is at most ten records, the first ones in the order SerpApi listed them. */
  lemma ShapeResultsTruncates(results: Dict<Json>, hotels: seq<Hotel>)
    requires ShapeResults(results) == Ok(hotels)
    ensures "properties" !in Keys(results) ==> hotels == []
    ensures Lookup(results, "properties").Some? ==>
      var props := Iterate(Lookup(results, "properties").value).value;
      && |hotels| == (if |props| <= MaxResults then |props| else MaxResults)
      && forall i :: 0 <= i < |hotels| ==> Project(props[i]) == Ok(hotels[i]) && Keys(hotels[i]) == HotelKeys
  {
    LookupFound(results, "properties");
    if "properties" in Keys(results) {
      var props := Iterate(Lookup(results, "properties").value).value;
      var all := ProjectEach(props).value;
      ProjectEachOk(props, all);
    }
  }

  /**
   * `search_hotels`: build the request, ask SerpApi (`serp`, which may
   * raise), then shape the answer; `params` is the request it sent.
   */
  method SearchHotels(tool: HotelSearchTool, query: string, checkIn: Option<string>, checkOut: Option<string>,
                      serp: Dict<string> -> Result<Dict<Json>>)
    returns (params: Dict<string>, r: Result<seq<Hotel>>)
    ensures Lookup(params, "engine") == Some("google_hotels") && Lookup(params, "q") == Some(query)
    ensures Lookup(params, "api_key") == Some(tool.apiKey)
    ensures Lookup(params, "hl") == Some("en") && Lookup(params, "gl") == Some("us")
    ensures Lookup(params, "currency") == Some("JPY")
    ensures Lookup(params, "check_in_date") == (if Truthy(checkIn) then Some(checkIn.value) else None)
    ensures Lookup(params, "check_out_date") == (if Truthy(checkOut) then Some(checkOut.value) else None)
    ensures Keys(params) == ["engine", "q", "api_key", "hl", "gl", "currency"]
              + (if Truthy(checkIn) then ["check_in_date"] else [])
              + (if Truthy(checkOut) then ["check_out_date"] else [])
    ensures serp(params).Err? ==> r == Err(serp(params).error)
    ensures serp(params).Ok? ==> r == ShapeResults(serp(params).value)
  {
    params := BuildParams(tool, query, checkIn, checkOut);
    var answer := serp(params);
    if answer.Err? {
      return params, Err(answer.error);
    }
    var results := answer.value;
    var hotels: seq<Hotel> := [];
    LookupFound(results, "properties");
    if "properties" in Keys(results) {
      var props := Iterate(Lookup(results, "properties").value);
      if props.Err? {
        return params, Err(props.error);
      }
      var projected := ProjectAll(props.value);
      if projected.Err? {
        return params, Err(projected.error);
      }
      hotels := projected.value;
    }
    r := Ok(if |hotels| <= MaxResults then hotels else hotels[..MaxResults]);
  }
}
