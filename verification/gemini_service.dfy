/**
 * The deterministic pieces of the AI service wrapper: the fallback
 * geocoder over a district table, the payload truncation for the
 * report request, and the treatment of the extraction reply text.
 * The remote calls themselves are inputs: a reply, a parser, random draws.
 */
module GeminiService {
  import opened Wrappers
  import opened Types

  /** A `[lat, lng]` pair in degrees. */
  datatype Coord = Coord(lat: real, lng: real)

  /** One row of the district-centroid table. */
  datatype District = District(name: string, centre: Coord)

  /** The citywide centre returned when no district name matches. */
  const FallbackCoord: Coord := Coord(22.9997, 120.2270)

  /** Width of the jitter window in degrees per axis. */
  const JitterWindow: real := 0.005

  /** Records of each kind sent with a report request. */
  const PayloadLimit: nat := 15

  /** `needle` occurs in `hay` starting at position `k`. */
  ghost predicate OccursAt(hay: string, needle: string, k: nat) {
    k + |needle| <= |hay| && hay[k..k + |needle|] == needle
  }

  /** `hay.includes(needle)`: the empty needle occurs everywhere, a longer one nowhere. */
  function Includes(hay: string, needle: string): (r: bool)
    ensures needle == [] ==> r
    ensures |needle| > |hay| ==> !r
    decreases |hay|
  {
    needle <= hay || (|hay| > 0 && Includes(hay[1..], needle))
  }

  /** Where `Includes` holds, the needle occurs at some position. */
  lemma {:induction false} IncludesWitness(hay: string, needle: string) returns (k: nat)
    requires Includes(hay, needle)
    ensures OccursAt(hay, needle, k)
    decreases |hay|
  {
    if needle <= hay {
      k := 0;
    } else {
      var k' := IncludesWitness(hay[1..], needle);
      assert hay[1..][k'..k' + |needle|] == hay[k' + 1..k' + 1 + |needle|];
      k := k' + 1;
    }
  }

  /** An occurrence at any position makes `Includes` hold. */
  lemma {:induction false} OccursGivesIncludes(hay: string, needle: string, k: nat)
    requires OccursAt(hay, needle, k)
    ensures Includes(hay, needle)
    decreases k
  {
    if k == 0 {
      assert needle <= hay;
    } else {
      assert hay[1..][k - 1..k - 1 + |needle|] == hay[k..k + |needle|];
      OccursGivesIncludes(hay[1..], needle, k - 1);
    }
  }

  /** `Includes` holds exactly when the needle occurs at some position. */
  lemma IncludesIffOccurs(hay: string, needle: string)
    ensures Includes(hay, needle) <==> exists k: nat :: OccursAt(hay, needle, k)
  {
    if Includes(hay, needle) {
      var k := IncludesWitness(hay, needle);
    } else {
      forall k: nat ensures !OccursAt(hay, needle, k) {
        if OccursAt(hay, needle, k) {
          OccursGivesIncludes(hay, needle, k);
        }
      }
    }
  }

  /**
   * The test applied to each table row: the name occurs in the address,
   * or in the district hint when one is given and is not the empty
   * string (an empty hint is falsy and is not searched).
   */
  predicate RowMatches(name: string, address: string, district: Option<string>)
    ensures Includes(address, name) ==> RowMatches(name, address, district)
    ensures district.None? || district == Some("") ==> (RowMatches(name, address, district) <==> Includes(address, name))
  {
    Includes(address, name) || (district.Some? && district.value != "" && Includes(district.value, name))
  }

  /**
   * `(Math.random() - 0.5) * 0.005` for a draw `r`: a draw in [0, 1)
   * moves a coordinate by less than a quarter of a hundredth of a degree.
   */
  function Jitter(r: real): (j: real)
    ensures 0.0 <= r < 1.0 ==> -0.0025 <= j < 0.0025
    ensures j == 0.0 <==> r == 0.5
  {
    (r - 0.5) * JitterWindow
  }

  /**
   * `getGeocode`: the centre of the first matching row, in table order,
   * moved by the two draws; the fixed citywide centre when no row matches.
   */
  function Geocode(table: seq<District>, address: string, district: Option<string>,
                   r1: real, r2: real): (c: Coord)
    ensures (forall k :: 0 <= k < |table| ==> !RowMatches(table[k].name, address, district))
            ==> c == FallbackCoord
    ensures forall k :: (0 <= k < |table| && RowMatches(table[k].name, address, district)
                          && (forall j :: 0 <= j < k ==> !RowMatches(table[j].name, address, district)))
                        ==> c == Coord(table[k].centre.lat + Jitter(r1), table[k].centre.lng + Jitter(r2))
  {
    if |table| == 0 then FallbackCoord
    else if RowMatches(table[0].name, address, district) then
      Coord(table[0].centre.lat + Jitter(r1), table[0].centre.lng + Jitter(r2))
    else
      var c := Geocode(table[1..], address, district, r1, r2);
      assert forall k :: 1 <= k < |table| ==> table[1..][k - 1] == table[k];
      c
  }

  /** Absent and empty hints behave alike: only the address is searched. */
  lemma {:induction false} GeocodeWithoutHint(table: seq<District>, address: string, r1: real, r2: real)
    ensures Geocode(table, address, None, r1, r2) == Geocode(table, address, Some(""), r1, r2)
    ensures (forall k :: 0 <= k < |table| ==> !Includes(address, table[k].name))
            ==> Geocode(table, address, None, r1, r2) == FallbackCoord
  {
    if |table| > 0 {
      GeocodeWithoutHint(table[1..], address, r1, r2);
    }
  }

  /** A matched result lies within the jitter window around some row's centre. */
  lemma GeocodeNearACentre(table: seq<District>, address: string, district: Option<string>,
                           r1: real, r2: real)
    requires 0.0 <= r1 < 1.0 && 0.0 <= r2 < 1.0
    ensures var c := Geocode(table, address, district, r1, r2);
      c == FallbackCoord ||
      exists k :: 0 <= k < |table| && RowMatches(table[k].name, address, district) &&
        table[k].centre.lat - 0.0025 <= c.lat < table[k].centre.lat + 0.0025 &&
        table[k].centre.lng - 0.0025 <= c.lng < table[k].centre.lng + 0.0025
  {
    if k :| 0 <= k < |table| && RowMatches(table[k].name, address, district) {
      // Only brings FirstMatch's contract into scope: the first matching row exists.
      var first := FirstMatch(table, address, district, k);
    }
  }

  /** The least matching row index, given that row `k` matches. */
  function FirstMatch(table: seq<District>, address: string, district: Option<string>, k: nat): (f: nat)
    requires k < |table| && RowMatches(table[k].name, address, district)
    ensures f <= k && RowMatches(table[f].name, address, district)
    ensures forall j :: 0 <= j < f ==> !RowMatches(table[j].name, address, district)
  {
    if exists j :: 0 <= j < k && RowMatches(table[j].name, address, district) then
      var j :| 0 <= j < k && RowMatches(table[j].name, address, district);
      FirstMatch(table, address, district, j)
    else k
  }

  /** `s.slice(0, n)`. */
  function Take<T>(s: seq<T>, n: nat): (r: seq<T>)
    ensures |r| == if |s| < n then |s| else n
    ensures r <= s
  {
    if |s| <= n then s else s[..n]
  }

  /** What a report request carries: at most 15 records of each kind. */
  datatype Payload = Payload(resources: seq<ResourceItem>, demands: seq<DemandItem>)

  /** The records `getInsights` embeds in its prompt. */
  function InsightPayload(resources: seq<ResourceItem>, demands: seq<DemandItem>): (p: Payload)
    ensures |p.resources| <= PayloadLimit && |p.demands| <= PayloadLimit
    ensures p.resources <= resources && p.demands <= demands
    ensures |resources| <= PayloadLimit ==> p.resources == resources
    ensures |demands| <= PayloadLimit ==> p.demands == demands
    ensures |resources| >= PayloadLimit ==> |p.resources| == PayloadLimit
    ensures |demands| >= PayloadLimit ==> |p.demands| == PayloadLimit
  {
    Payload(Take(resources, PayloadLimit), Take(demands, PayloadLimit))
  }

  /** What `JSON.parse` produced: an array of records, or some other value. */
  datatype JsonValue<T> = JsonArray(items: seq<T>) | JsonOther

  /** The outcome of the extraction call: it failed, or answered with possibly absent text. */
  datatype ServiceReply = CallFailed | Responded(text: Option<string>)

  /** `response.text || '[]'`: absent and empty text both fall back to the empty array. */
  function ReplyText(text: Option<string>): (t: string)
    ensures t == "[]" <==> (text.None? || text.value == "" || text.value == "[]")
    ensures t != "[]" ==> text == Some(t)
  {
    if text.None? || text.value == "" then "[]" else text.value
  }

  /**
   * The tail of `parseResourceCSVWithGemini` / `parseDemandCSVWithGemini`.
   * `parse` abstracts `JSON.parse` (None when it throws); it reads `[]`
   * as the empty array. A failed call rejects; a parse failure does not.
   */
  function ParseCsvReply<T>(reply: ServiceReply, parse: string -> Option<JsonValue<T>>): (r: Settled<JsonValue<T>>)
    requires parse("[]") == Some(JsonArray([]))
    ensures r.Rejected? <==> reply.CallFailed?
    ensures reply.Responded? && (reply.text.None? || reply.text.value == "") ==> r == Resolved(JsonArray([]))
    ensures reply.Responded? && parse(ReplyText(reply.text)).None? ==> r == Resolved(JsonArray([]))
    ensures reply.Responded? && parse(ReplyText(reply.text)).Some? ==> r == Resolved(parse(ReplyText(reply.text)).value)
  {
    match reply
    case CallFailed => Rejected
    case Responded(text) =>
      match parse(ReplyText(text))
      case None => Resolved(JsonArray([]))
      case Some(v) => Resolved(v)
  }
}
