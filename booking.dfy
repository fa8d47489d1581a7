/** `BookingTool.generate_booking_link`: a Google Hotels deep link for one hotel. */
module Booking {
  import opened Wrappers
  import opened FormUrlEncoding
  import Text

  const BaseUrl: string := "https://www.google.com/travel/hotels"

  /**
   * The query dictionary is `{"q": hotel_name, "dpr": 1}`; `urlencode` writes
   * the integer through `str`, so the second value is the text "1". The two
   * dates are accepted and take no part in the link.
   */
  function GenerateBookingLink(hotelName: string, checkIn: string, checkOut: string): (link: string)
    ensures link == BaseUrl + "?" + "q=" + QuotePlus(hotelName) + "&dpr=1"
  {
    QueryShape(hotelName);
    BaseUrl + "?" + UrlEncode([("q", hotelName), ("dpr", "1")])
  }

  lemma QueryShape(hotelName: string)
    ensures UrlEncode([("q", hotelName), ("dpr", "1")]) == "q=" + QuotePlus(hotelName) + "&dpr=1"
  {
    QuotePlusUnreserved("q");
    QuotePlusUnreserved("dpr");
    QuotePlusUnreserved("1");
    UrlEncodeTwo(("q", hotelName), ("dpr", "1"));
  }

  /** Two pairs encode as their two fields around one `&`. */
  lemma UrlEncodeTwo(a: (string, string), b: (string, string))
    ensures UrlEncode([a, b]) == QuotePlus(a.0) + "=" + QuotePlus(a.1) + "&" + (QuotePlus(b.0) + "=" + QuotePlus(b.1))
  {
    var pairs := [a, b];
    assert pairs[1..] == [b] && [b][1..] == [];
    var first := QuotePlus(a.0) + "=" + QuotePlus(a.1);
    var second := QuotePlus(b.0) + "=" + QuotePlus(b.1);
    assert Fields([b]) == [second];
    assert Fields(pairs) == [first, second];
    assert [first, second][1..] == [second];
    assert Text.Join([second], "&") == second;
    assert Text.Join([first, second], "&") == first + "&" + second;
  }

  /** The query component of a URL: what follows its first `?`. */
  function QueryOf(url: string): Option<string>
  {
    SplitFirst(url, '?').1
  }

  /**
   * Reading the link back: its query parses to exactly the two parameters
   * `q` (the hotel name, recovered character for character) and `dpr`.
   */
  lemma LinkQueryParses(hotelName: string, checkIn: string, checkOut: string)
    ensures QueryOf(GenerateBookingLink(hotelName, checkIn, checkOut)) == Some(UrlEncode([("q", hotelName), ("dpr", "1")]))
    ensures ParseQsl(QueryOf(GenerateBookingLink(hotelName, checkIn, checkOut)).value) == Some([("q", hotelName), ("dpr", "1")])
  {
    var query := UrlEncode([("q", hotelName), ("dpr", "1")]);
    assert '?' !in BaseUrl;
    SplitFirstAt(BaseUrl, query, '?');
    assert BaseUrl + "?" + query == BaseUrl + ['?'] + query;
    ParseQslUrlEncode([("q", hotelName), ("dpr", "1")]);
  }

  /** The encoded name is made of unreserved characters, `+` and `%HH` triples, so it cannot open another parameter. */
  lemma EncodedNameCannotInject(hotelName: string)
    ensures WellQuoted(QuotePlus(hotelName))
    ensures forall c :: c in "&=?# " ==> c !in QuotePlus(hotelName)
  {
    QuoteBytesWellQuoted(Utf8.Encode(hotelName));
  }

  /** Distinct hotel names give distinct links, whatever the dates. */
  lemma LinkDeterminesHotel(a: string, b: string, inA: string, outA: string, inB: string, outB: string)
    requires GenerateBookingLink(a, inA, outA) == GenerateBookingLink(b, inB, outB)
    ensures a == b
  {
    LinkQueryParses(a, inA, outA);
    LinkQueryParses(b, inB, outB);
  }
}
