/** The weather provider's request URL and the classification of one fetch:
    a transport outcome plus a body decoder become either the decoded value or
    a `NetworkError`. */
module Network {
  import opened Wrappers

  /** The error type the fetch publisher fails with. */
  datatype NetworkError =
    | InvalidResponse
    | InvalidData
    | Error(err: string)
    | DecodingError(err: string)

  const BaseURLString: string := "https://api.openweathermap.org/data/2.5/"

  /** Everything of the URL before the latitude. */
  const Head: string := BaseURLString + "onecall?lat="

  /** What separates the latitude from the longitude. */
  const LonTag: string := "&lon="

  /** Everything of the URL after the longitude. */
  function Tail(appId: string): string
  {
    "&exclude=minutely&appid=" + appId + "&units=imperial"
  }

  /** `API.getURLFor`. `lat` and `lon` are the coordinates as Swift renders a
      `Double`; `appId` is the provider key. */
  function GetURLFor(lat: string, lon: string, appId: string): (url: string)
    ensures |url| == |Head| + |lat| + |LonTag| + |lon| + |Tail(appId)|
    ensures url[..|Head|] == BaseURLString + "onecall?lat="
    ensures url[|Head|..|Head| + |lat|] == lat
    ensures url[|Head| + |lat|..|Head| + |lat| + |LonTag|] == "&lon="
    ensures url[|Head| + |lat| + |LonTag|..|url| - |Tail(appId)|] == lon
    ensures url[|url| - |Tail(appId)|..] == Tail(appId)
  {
    Head + lat + LonTag + lon + Tail(appId)
  }

  /** The longest prefix of `s` that does not contain `c`. */
  function TakeUntil(s: string, c: char): (r: string)
    ensures r <= s
    ensures c !in r
    ensures |r| < |s| ==> s[|r|] == c
  {
    if |s| == 0 || s[0] == c then [] else [s[0]] + TakeUntil(s[1..], c)
  }

  /** Splits `url` as `head`, a field up to the next `&`, `tag`, a field up to
      the next `&`, and exactly `tail`; the two fields are the result. */
  function Split(url: string, head: string, tag: string, tail: string): Option<(string, string)>
  {
    if !(head <= url) then None
    else
      var rest := url[|head|..];
      var first := TakeUntil(rest, '&');
      var afterFirst := rest[|first|..];
      if !(tag <= afterFirst) then None
      else
        var afterTag := afterFirst[|tag|..];
        var second := TakeUntil(afterTag, '&');
        if afterTag[|second|..] == tail then Some((first, second)) else None
  }

  /** The reading of a request URL back into its latitude and longitude text:
      the inverse of `GetURLFor` for a given key. */
  function ParseURL(url: string, appId: string): Option<(string, string)>
  {
    Split(url, Head, LonTag, Tail(appId))
  }

  /** The prefix `TakeUntil` finds is `a` whenever `a` is free of `c` and what
      follows it starts with `c`. */
  lemma {:induction false} TakeUntilStopsAtSeparator(a: string, b: string, c: char)
    requires c !in a
    requires |b| > 0 && b[0] == c
    ensures TakeUntil(a + b, c) == a
  {
    if |a| == 0 {
      assert a + b == b;
    } else {
      assert (a + b)[0] == a[0];
      assert (a + b)[1..] == a[1..] + b;
      TakeUntilStopsAtSeparator(a[1..], b, c);
      assert [a[0]] + a[1..] == a;
    }
  }

  /** Splitting a joined URL recovers its two fields when they hold no `&`
      and both separators start with one. */
  lemma {:induction false} SplitJoin(head: string, first: string, tag: string, second: string, tail: string)
    requires '&' !in first && '&' !in second
    requires |tag| > 0 && tag[0] == '&'
    requires |tail| > 0 && tail[0] == '&'
    ensures Split(head + first + tag + second + tail, head, tag, tail) == Some((first, second))
  {
    var url := head + first + tag + second + tail;
    assert head <= url;
    var rest := url[|head|..];
    assert rest == first + (tag + second + tail);
    TakeUntilStopsAtSeparator(first, tag + second + tail, '&');
    var afterFirst := rest[|first|..];
    assert afterFirst == tag + (second + tail);
    var afterTag := afterFirst[|tag|..];
    assert afterTag == second + tail;
    TakeUntilStopsAtSeparator(second, tail, '&');
  }

  /** A URL that splits into two fields is the join of those fields. */
  lemma {:induction false} SplitIsJoin(url: string, head: string, tag: string, tail: string, first: string, second: string)
    requires Split(url, head, tag, tail) == Some((first, second))
    ensures url == head + first + tag + second + tail
    ensures '&' !in first && '&' !in second
  {
    assert head <= url;
    var rest := url[|head|..];
    PrefixJoin(url, head);
    var f := TakeUntil(rest, '&');
    var afterFirst := rest[|f|..];
    PrefixJoin(rest, f);
    assert tag <= afterFirst;
    var afterTag := afterFirst[|tag|..];
    PrefixJoin(afterFirst, tag);
    var sd := TakeUntil(afterTag, '&');
    PrefixJoin(afterTag, sd);
    assert afterTag[|sd|..] == tail;
    assert f == first && sd == second;
    assert afterFirst == tag + (second + tail);
    assert rest == first + (tag + (second + tail));
    SeqAssoc(head, first, tag, second, tail);
  }

  /** Concatenation of five pieces regroups freely. */
  lemma SeqAssoc(a: string, b: string, c: string, d: string, e: string)
    ensures a + (b + (c + (d + e))) == a + b + c + d + e
  {
  }

  /** A sequence is its prefix followed by the rest. */
  lemma PrefixJoin(s: string, p: string)
    requires p <= s
    ensures s == p + s[|p|..]
  {
  }

  /** Reading the URL back yields exactly the coordinates it was built from,
      provided their text holds no `&` (a rendered `Double` never does). */
  lemma ParseGetURLFor(lat: string, lon: string, appId: string)
    requires '&' !in lat && '&' !in lon
    ensures ParseURL(GetURLFor(lat, lon, appId), appId) == Some((lat, lon))
  {
    SplitJoin(Head, lat, LonTag, lon, Tail(appId));
  }

  /** Conversely, a URL that reads back as some coordinates is the one built
      from them. */
  lemma ParsedURLIsBuilt(url: string, appId: string, lat: string, lon: string)
    requires ParseURL(url, appId) == Some((lat, lon))
    ensures url == GetURLFor(lat, lon, appId)
    ensures '&' !in lat && '&' !in lon
  {
    SplitIsJoin(url, Head, LonTag, Tail(appId), lat, lon);
  }

  /** Two request URLs for the same key are equal only for equal coordinates. */
  lemma GetURLForInjective(lat1: string, lon1: string, lat2: string, lon2: string, appId: string)
    requires '&' !in lat1 && '&' !in lon1 && '&' !in lat2 && '&' !in lon2
    requires GetURLFor(lat1, lon1, appId) == GetURLFor(lat2, lon2, appId)
    ensures lat1 == lat2 && lon1 == lon2
  {
    ParseGetURLFor(lat1, lon1, appId);
    ParseGetURLFor(lat2, lon2, appId);
  }

  /** What a URL response is: an HTTP response with a status code, or some
      other kind of response. */
  datatype ResponseKind = NonHTTP | HTTP(statusCode: int)

  /** What the data task delivers: a response with its body, or a transport
      failure with the failure's localized description. */
  datatype Transport = Delivered(response: ResponseKind, data: seq<bv8>) | TransportFailed(description: string)

  /** What the JSON decoder makes of a body: a value, or a decoding error with
      its localized description. */
  datatype Decoded<T> = Decoded(value: T) | DecodeFailed(description: string)

  /** An error thrown inside the publisher chain: one of the app's own
      `NetworkError`s, or any other error, known only by its description. */
  datatype Thrown = Raised(error: NetworkError) | Foreign(description: string)

  /** The `mapError` step: `NetworkError`s pass through unchanged, every other
      error becomes `.error` carrying its description. */
  function MapError(e: Thrown): (r: NetworkError)
    ensures e.Raised? ==> r == e.error
    ensures e.Foreign? ==> r == Error(e.description)
  {
    match e
    case Raised(n) => n
    case Foreign(d) => Error(d)
  }

  /** True when the response is an HTTP response with status 200. */
  predicate IsOK(r: ResponseKind)
  {
    r.HTTP? && r.statusCode == 200
  }

  /** The `tryMap` step over a delivered response. */
  function CheckAndDecode<T>(response: ResponseKind, data: seq<bv8>, decode: seq<bv8> -> Decoded<T>): Result<T, Thrown>
  {
    if !IsOK(response) then Failure(Raised(InvalidResponse))
    else
      match decode(data)
      case Decoded(v) => Success(v)
      case DecodeFailed(d) => Failure(Foreign(d))
  }

  /** `NetworkManager.fetch`: the one outcome the publisher produces for a
      transport outcome, given the decoder the type's `Codable` conformance
      supplies. */
  function Fetch<T(==)>(t: Transport, decode: seq<bv8> -> Decoded<T>): (r: Result<T, NetworkError>)
    ensures r.Success? <==> t.Delivered? && IsOK(t.response) && decode(t.data).Decoded?
    ensures r.Success? ==> decode(t.data) == Decoded(r.value)
    ensures r == Failure(InvalidResponse) <==> t.Delivered? && !IsOK(t.response)
    ensures r.Failure? ==> r.error.InvalidResponse? || r.error.Error?
    ensures t.TransportFailed? ==> r == Failure(Error(t.description))
    ensures t.Delivered? && IsOK(t.response) && decode(t.data).DecodeFailed?
            ==> r == Failure(Error(decode(t.data).description))
  {
    match t
    case TransportFailed(d) => Failure(MapError(Foreign(d)))
    case Delivered(response, data) =>
      match CheckAndDecode(response, data, decode)
      case Success(v) => Success(v)
      case Failure(e) => Failure(MapError(e))
  }

  /** A response that is not HTTP 200 is classified without looking at the
      body: the decoder is never consulted. */
  lemma DecoderUnusedUnlessOK<T>(response: ResponseKind, data: seq<bv8>, d1: seq<bv8> -> Decoded<T>, d2: seq<bv8> -> Decoded<T>)
    requires !IsOK(response)
    ensures Fetch(Delivered(response, data), d1) == Fetch(Delivered(response, data), d2)
    ensures Fetch(Delivered(response, data), d1) == Failure(InvalidResponse)
  {
  }

  /** A fetch never fails with `invalidData` or `decodingError`. */
  lemma FetchNeverInvalidDataOrDecodingError<T>(t: Transport, decode: seq<bv8> -> Decoded<T>)
    ensures Fetch(t, decode) != Failure(InvalidData)
    ensures !(Fetch(t, decode).Failure? && Fetch(t, decode).error.DecodingError?)
  {
  }
}
