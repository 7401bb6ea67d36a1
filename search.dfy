/**
 * The coordinate search box of the Mars page: the query is split on ","
 * and each piece is trimmed and handed to `parseFloat`; it is accepted
 * only when there are exactly two pieces and both parse.
 */
module Search {
  import opened Wrappers
  import opened JsText

  /** The outcome of reading the query: the point to fly to, or invalid coordinates. */
  datatype SearchResult = Accepted(lat: real, lng: real) | Invalid

  /**
   * `searchQuery.split(",").map(s => parseFloat(s.trim()))` followed by the
   * check `coords.length === 2 && !isNaN(coords[0]) && !isNaN(coords[1])`;
   * `parseFloat` is a parameter whose None stands for NaN.
   */
  function ParseSearch(query: string, parseFloat: string -> Option<real>): (r: SearchResult)
    ensures r.Accepted? <==> exists k :: 0 <= k < |query| && query[k] == ',' && OneCommaAt(query, k, parseFloat)
    ensures forall k :: 0 <= k < |query| && query[k] == ',' && OneCommaAt(query, k, parseFloat) ==>
      r == Accepted(parseFloat(Trim(query[..k])).value, parseFloat(Trim(query[k + 1..])).value)
  {
    var pieces := Split(query, ',');
    var r :=
      if |pieces| == 2 && parseFloat(Trim(pieces[0])).Some? && parseFloat(Trim(pieces[1])).Some?
      then Accepted(parseFloat(Trim(pieces[0])).value, parseFloat(Trim(pieces[1])).value)
      else Invalid;
    if |pieces| == 2 then
      SplitInTwo(query, ',', pieces[0], pieces[1]);
      var k := |pieces[0]|;
      assert query[k] == ',' && query[..k] == pieces[0] && query[k + 1..] == pieces[1];
      UniqueComma(query, k);
      r
    else
      NoSingleComma(query, parseFloat);
      r
  }

  /** `query` holds its only comma at `k`, and the text on both sides parses. */
  ghost predicate OneCommaAt(query: string, k: int, parseFloat: string -> Option<real>)
    requires 0 <= k < |query|
  {
    && ',' !in query[..k] && ',' !in query[k + 1..]
    && parseFloat(Trim(query[..k])).Some? && parseFloat(Trim(query[k + 1..])).Some?
  }

  /** A comma with no other comma on either side is the only one. */
  lemma UniqueComma(query: string, k: int)
    requires 0 <= k < |query| && query[k] == ','
    requires ',' !in query[..k] && ',' !in query[k + 1..]
    ensures forall j :: 0 <= j < |query| && query[j] == ',' ==> j == k
  {
    forall j | 0 <= j < k ensures query[j] != ',' {
      assert query[j] == query[..k][j];
    }
    forall j | k < j < |query| ensures query[j] != ',' {
      assert query[j] == query[k + 1..][j - k - 1];
    }
  }

  /** A query that does not split in two has no comma standing alone. */
  lemma NoSingleComma(query: string, parseFloat: string -> Option<real>)
    requires |Split(query, ',')| != 2
    ensures forall k :: 0 <= k < |query| && query[k] == ',' ==> !OneCommaAt(query, k, parseFloat)
  {
    forall k | 0 <= k < |query| && query[k] == ',' && ',' !in query[..k] && ',' !in query[k + 1..]
      ensures false
    {
      assert query == query[..k] + [','] + query[k + 1..];
      SplitInTwo(query, ',', query[..k], query[k + 1..]);
    }
  }

  /** A query without any comma is never accepted. */
  lemma NoCommaRejected(query: string, parseFloat: string -> Option<real>)
    requires ',' !in query
    ensures ParseSearch(query, parseFloat) == Invalid
  {
    SplitNoSeparator(query, ',');
  }

  /** Two numbers around one comma are accepted as latitude then longitude. */
  lemma TwoNumbersAccepted(a: string, b: string, parseFloat: string -> Option<real>)
    requires ',' !in a && ',' !in b
    requires parseFloat(Trim(a)).Some? && parseFloat(Trim(b)).Some?
    ensures ParseSearch(a + [','] + b, parseFloat) == Accepted(parseFloat(Trim(a)).value, parseFloat(Trim(b)).value)
  {
    SplitInTwo(a + [','] + b, ',', a, b);
  }
}
