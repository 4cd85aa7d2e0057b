/** The reply of cmdChannels (telegram/commands.go): one record per matching
    channel, cut down to a size Telegram accepts. The regular-expression
    filter runs before this point; its result is the input here. */
module ChannelList {
  import opened Optional
  import GoStrings

  /** The body is cut when it is longer than this many bytes. */
  const Limit := 3000

  /** Appended to a body that was cut. */
  const Marker := "\n ... truncated"

  /** One channel that matched: its chat id and its stored description. */
  datatype Listed = Listed(id: string, desc: string)

  /** The body loop of cmdChannels: "\n<id> <desc>" per matched channel, in
      the order the map is iterated. */
  function ListingBody(results: seq<Listed>): (body: string)
    ensures |results| > 0 ==> |body| > 0 && body[0] == '\n'
    ensures |results| == 0 ==> body == ""
    decreases |results|
  {
    if |results| == 0 then ""
    else "\n" + results[0].id + " " + results[0].desc + ListingBody(results[1..])
  }

  /** The truncation block of cmdChannels. A body over the limit is cut to its
      first Limit bytes, then back to the last newline in them, and the marker
      is appended. When those bytes hold no newline, strings.LastIndex gives -1
      and the slice panics: that is None here. */
  function Truncate(body: string): (r: Option<string>)
    ensures |body| <= Limit ==> r == Some(body)
    ensures |body| > Limit ==> (r.None? <==> '\n' !in body[..Limit])
    ensures r.Some? && |body| > Limit ==>
      exists k :: 0 <= k < Limit && body[k] == '\n'
        && (forall i :: k < i < Limit ==> body[i] != '\n')
        && r.value == body[..k] + Marker
    ensures r.Some? ==> |r.value| < Limit + |Marker|
  {
    if |body| <= Limit then Some(body)
    else
      var cut := body[..Limit];
      var k := GoStrings.LastIndex(cut, '\n');
      if k < 0 then None
      else
        assert cut[..k] == body[..k] && body[k] == '\n';
        Some(cut[..k] + Marker)
  }

  /** A truncated body never keeps a partial line: what is kept is a prefix of
      the original that ends right before one of its newlines. */
  lemma TruncateKeepsWholeLines(body: string)
    requires |body| > Limit
    requires Truncate(body).Some?
    ensures var r := Truncate(body).value;
      && |r| >= |Marker|
      && r[|r| - |Marker|..] == Marker
      && r[..|r| - |Marker|] <= body
      && body[|r| - |Marker|] == '\n'
  {
  }

  /** The listing always starts with a newline, so its truncation never hits
      the panicking slice. */
  lemma ListingNeverPanics(results: seq<Listed>)
    ensures Truncate(ListingBody(results)).Some?
  {
  }

  /** The text cmdChannels sends: a count of the matched channels, then the
      possibly truncated listing. */
  function ChannelsText(results: seq<Listed>): (text: string)
    ensures |ListingBody(results)| <= Limit ==> text == Header(results) + ListingBody(results)
    ensures |text| < |Header(results)| + Limit + |Marker|
  {
    ListingNeverPanics(results);
    Header(results) + Truncate(ListingBody(results)).value
  }

  /** "found %d channels:" */
  function Header(results: seq<Listed>): (h: string)
    ensures |h| > |"found " + " channels:"|
    ensures h[..6] == "found " && h[|h| - 10..] == " channels:"
  {
    "found " + GoStrings.FormatInt(|results|) + " channels:"
  }

  /** The number between "found " and " channels:" reads back as the count
      of matched channels. */
  lemma HeaderCount(results: seq<Listed>)
    ensures var h := Header(results);
      && GoStrings.IntText(h[6..|h| - 10])
      && GoStrings.ParseInt(h[6..|h| - 10]) == |results|
  {
    var h := Header(results);
    assert h[6..|h| - 10] == GoStrings.FormatInt(|results|);
    GoStrings.FormatIntRoundTrip(|results|);
  }
}
